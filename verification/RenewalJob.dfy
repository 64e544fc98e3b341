/**
 The renewal worker (tickRenewalJob, pauseRenewalLocked, minimumRenewalSpacing and deferRenewal in
 cmd/rootwelld/renewal_job.go) beside whatever else holds the gate's mutex.

 One step of the worker is one mutex region; between two of them anything may happen: another
 request may pause the job, time passes, the wall clock jumps. Times are whole seconds; the
 monotonic clock never goes back, the wall clock is any number. Decisions, reads and outcomes come
 from outside.
 */
module RenewalJob {
  import opened Common

  const ACTION_LIMIT := 160
  const POLL_LIMIT := 12
  const CYCLE_EVENTS := 320

  datatype Action =
    | Timing | ValidationRead | CertificateRead | Validate | Certificate
    | OrderAction | OrderRead | DnsAdd | DnsCheck | DnsCleanup | LocalAction

  // How far apart two starts must be once this action was saved.
  function Gap(a: Action): int {
    if a in {Validate, ValidationRead, Certificate, CertificateRead, Timing} then 300 else 60
  }

  predicate Network(a: Action) { a != LocalAction }

  datatype State = Waiting | RunningNow | Paused | Complete

  datatype Decision = Pause | Finish | Wait(next: Option<int>) | Do(action: Action)

  // next and last are wall-clock times, issued is monotonic; None is the zero time.
  datatype Job = Job(
    actions: nat, timing: nat, validation: nat, certificate: nat, generation: int, initial: int,
    state: State, next: Option<int>, last: int, issued: Option<int>, cancelled: bool)

  predicate Active(j: Job) { j.state == Waiting || j.state == RunningNow }

  function Fresh(generation: int, wall: int): Job {
    Job(0, 0, 0, 0, generation, generation, Waiting, None, wall, None, false)
  }

  function Later(a: Option<int>, b: int): Option<int> { if a.None? || b > a.value then Some(b) else a }

  // ---- Mutex regions ----

  // pauseRenewalLocked: a completed job stays complete, and was cancelled when it completed.
  function PauseJob(j: Job): Job {
    if j.state == Complete then j else j.(state := Paused, next := None, cancelled := true)
  }

  // renewalSession: live stands for everything it checks outside the job.
  predicate Permitted(j: Job, live: bool) { live && Active(j) && !j.cancelled }

  function Checked(j: Job, live: bool): Job {
    if !Permitted(j, live) && Active(j) then PauseJob(j) else j
  }

  function Spaced(j: Job, wall: int, mono: int): Job {
    if j.issued.Some? && 60 - (mono - j.issued.value) > 0 then
      j.(next := Later(j.next, wall + 60 - (mono - j.issued.value)))
    else j
  }

  // The first region of a tick; the job goes on when the second result is true. It does not look
  // again at whether the job is still active.
  function Entered(j: Job, wall: int, mono: int): (Job, bool) {
    var seen := j.(last := wall);
    if seen.actions >= ACTION_LIMIT || seen.generation < seen.initial
        || seen.generation - seen.initial >= CYCLE_EVENTS then
      (PauseJob(seen), false)
    else
      var spaced := Spaced(seen, wall, mono);
      if spaced.next.Some? && wall < spaced.next.value then (spaced.(state := Waiting), false) else (spaced, true)
  }

  function Deferred(j: Job, wall: int): Job {
    if Active(j) then j.(state := Waiting, next := Later(j.next, wall + 60)) else j
  }

  predicate PollLimited(j: Job, a: Action) {
    (a == Timing && j.timing >= POLL_LIMIT) || (a == ValidationRead && j.validation >= POLL_LIMIT)
    || (a == CertificateRead && j.certificate >= POLL_LIMIT)
  }

  // The decision region: the action to carry out, if any.
  function Decided(j: Job, d: Decision): (Job, Option<Action>) {
    if !Active(j) || j.cancelled then (j, None)
    else if j.generation < j.initial || j.generation - j.initial >= CYCLE_EVENTS then (PauseJob(j), None)
    else match d
      case Pause => (PauseJob(j), None)
      case Finish => (j.(state := Complete, next := None, cancelled := true), None)
      case Wait(next) => if next.None? then (PauseJob(j), None) else (j.(state := Waiting, next := next), None)
      case Do(a) => if PollLimited(j, a) then (PauseJob(j), None) else (j, Some(a))
  }

  // The region in which an action starts.
  function ActionStarted(j: Job, a: Action, mono: int): (Job, bool) {
    if !Active(j) || j.cancelled then (j, false)
    else
      (j.(state := RunningNow, next := None, actions := j.actions + 1, issued := Some(mono),
          timing := j.timing + (if a == Timing then 1 else 0),
          validation := j.validation + (if a == ValidationRead then 1 else 0),
          certificate := j.certificate + (if a == CertificateRead then 1 else 0)), true)
  }

  // The region in which its outcome is taken over.
  function ActionSaved(j: Job, a: Action, expected: int, generation: int, wall: int, mono: int): (Job, bool) {
    if !Active(j) || j.cancelled then (j, false)
    else if generation < expected || generation - expected > 3
        || generation - j.initial >= CYCLE_EVENTS then (PauseJob(j), false)
    else (j.(generation := generation, last := wall, state := Waiting, next := Some(wall + Gap(a)),
             issued := Some(mono + Gap(a) - 60)), true)
  }

  // ---- The worker ----

  datatype Place =
    | Top                                   // before a tick's first region
    | Entering
    | Claiming(expected: int)               // about to take the derivation slot
    | Admitting(expected: int)
    | Reading(expected: int)
    | Deciding(expected: int, decision: Decision)
    | Confirming(expected: int, action: Action)
    | Starting(expected: int, action: Action)
    | Executing(expected: int, action: Action)
    | Accepting(expected: int, action: Action, generation: int)
    | Saving(expected: int, action: Action, generation: int)
    | Selecting                             // the tick is over; wait or stop
    | Stopped

  // live: the session and clock checks; timely: the tick's own 25 seconds are not over; free: the slot
  // asked for; read: the stored state as decided upon; outcome: the executed action's result.
  datatype Input = Input(
    live: bool, timely: bool, wall: int, free: bool, read: Option<Decision>, outcome: Option<int>)

  // A permission asked for within a tick: it also ends with the tick's own time, which pauses nothing.
  predicate Allowed(j: Job, i: Input) { Permitted(j, i.live) && i.timely }

  datatype Happened =
    | Started(action: Action, at: int, spent: int)   // spent: generations used before it
    | SavedAt(action: Action, at: int)
    | Cancelled

  datatype World = World(job: Job, place: Place, mono: int, log: seq<Happened>)

  datatype Event = Worker(input: Input) | Outside | Elapse(seconds: nat)

  function Begin(generation: int, wall: int, mono: int): World { World(Fresh(generation, wall), Top, mono, []) }

  // A region's effect on the job, and the cancellation it may cause.
  function With(w: World, j: Job, place: Place): World {
    w.(job := j, place := place, log := if j.cancelled && !w.job.cancelled then w.log + [Cancelled] else w.log)
  }

  function Go(w: World, i: Input): World {
    match w.place
    case Top => With(w, Checked(w.job, i.live), if Permitted(w.job, i.live) then Entering else Selecting)
    case Entering =>
      var (j, on) := Entered(w.job, i.wall, w.mono);
      With(w, j, if on then Claiming(j.generation) else Selecting)
    case Claiming(expected) => if i.free then w.(place := Admitting(expected))
        else With(w, Deferred(w.job, i.wall), Selecting)
    case Admitting(expected) =>
      With(w, Checked(w.job, i.live), if Allowed(w.job, i) then Reading(expected) else Selecting)
    case Reading(expected) =>
      if i.read.None? then With(w, if Active(w.job) then PauseJob(w.job) else w.job, Selecting)
      else w.(place := Deciding(expected, i.read.value))
    case Deciding(expected, decision) =>
      var (j, a) := Decided(w.job, decision);
      With(w, j, if a.Some? then Confirming(expected, a.value) else Selecting)
    case Confirming(expected, a) =>
      if !Allowed(w.job, i) then With(w, Checked(w.job, i.live), Selecting)
      else if Network(a) && !i.free then With(w, Deferred(w.job, i.wall), Selecting)
      else w.(place := Starting(expected, a))
    case Starting(expected, a) =>
      var (j, on) := ActionStarted(w.job, a, w.mono);
      if on then w.(job := j, place := Executing(expected, a),
          log := w.log + [Started(a, w.mono, w.job.generation - w.job.initial)])
      else w.(place := Selecting)
    case Executing(expected, a) =>
      if i.outcome.None? then With(w, if Active(w.job) then PauseJob(w.job) else w.job, Selecting)
      else w.(place := Accepting(expected, a, i.outcome.value))
    case Accepting(expected, a, generation) =>
      With(w, Checked(w.job, i.live), if Allowed(w.job, i) then Saving(expected, a, generation) else Selecting)
    case Saving(expected, a, generation) =>
      var (j, saved) := ActionSaved(w.job, a, expected, generation, i.wall, w.mono);
      if saved then w.(job := j, place := Selecting, log := w.log + [SavedAt(a, w.mono)]) else With(w, j, Selecting)
    // A cancelled job's ticker may be ready too, and then either is picked.
    case Selecting => w.(place := if w.job.cancelled && !i.free then Stopped else Top)
    case Stopped => w
  }

  function Step(w: World, e: Event): World {
    match e
    case Worker(i) => Go(w, i)
    case Outside => With(w, PauseJob(w.job), w.place)
    case Elapse(seconds) => w.(mono := w.mono + seconds)
  }

  function Run(w: World, events: seq<Event>): World {
    if events == [] then w else Step(Run(w, events[..|events| - 1]), events[|events| - 1])
  }

  // ---- What every run keeps ----

  function Starts(log: seq<Happened>): nat {
    if log == [] then 0 else Starts(log[..|log| - 1]) + if log[|log| - 1].Started? then 1 else 0
  }

  function StartsOf(log: seq<Happened>, a: Action): nat {
    if log == [] then 0
    else StartsOf(log[..|log| - 1], a) + if log[|log| - 1].Started? && log[|log| - 1].action == a then 1 else 0
  }

  /** What the start at k, or any other event, may rely on in what went before it. */
  predicate Orderly(log: seq<Happened>, k: nat)
    requires k < |log|
  {
    log[k].Started? ==>
      && 0 <= log[k].spent < CYCLE_EVENTS
      && forall i | 0 <= i < k ::
           match log[i]
           case Started(_, at, _) => log[k].at >= at + 60
           case SavedAt(a, at) => log[k].at >= at + Gap(a)
           case Cancelled => false
  }

  predicate Cleared(p: Place) {
    p.Claiming? || p.Admitting? || p.Reading? || p.Deciding? || p.Confirming? || p.Starting?
  }

  predicate Acting(p: Place) { p.Executing? || p.Accepting? || p.Saving? }

  function Expected(p: Place): Option<int> {
    match p
    case Claiming(e) => Some(e) case Admitting(e) => Some(e) case Reading(e) => Some(e)
    case Deciding(e, _) => Some(e) case Confirming(e, _) => Some(e) case Starting(e, _) => Some(e)
    case Executing(e, _) => Some(e) case Accepting(e, _, _) => Some(e) case Saving(e, _, _) => Some(e)
    case _ => None
  }

  predicate JobInv(w: World) {
    var j := w.job;
    && 0 <= j.generation - j.initial < CYCLE_EVENTS
    && j.actions <= ACTION_LIMIT && j.timing <= POLL_LIMIT && j.validation <= POLL_LIMIT && j.certificate <= POLL_LIMIT
    && (Expected(w.place).Some? ==> Expected(w.place) == Some(j.generation))
    && (Cleared(w.place) ==> j.actions < ACTION_LIMIT && (j.issued.Some? ==> w.mono >= j.issued.value + 60))
    && (w.place.Confirming? || w.place.Starting? ==> !PollLimited(j, w.place.action))
    && (Acting(w.place) ==> j.issued.Some? && j.issued.value <= w.mono)
    && (j.state == Paused || j.state == Complete ==> j.cancelled)
  }

  predicate LogInv(w: World) {
    && Starts(w.log) == w.job.actions
    && StartsOf(w.log, Timing) == w.job.timing && StartsOf(w.log, ValidationRead) == w.job.validation
    && StartsOf(w.log, CertificateRead) == w.job.certificate
    && (forall k | 0 <= k < |w.log| :: Orderly(w.log, k))
    && (forall k | 0 <= k < |w.log| :: Behind(w, w.log[k]))
  }

  // Every past event is behind the floor for the next start, and a cancellation is never forgotten.
  predicate Behind(w: World, e: Happened) {
    match e
    case Started(_, at, _) => w.job.issued.Some? && w.job.issued.value >= at
    case SavedAt(a, at) => w.job.issued.Some? && w.job.issued.value >= at + Gap(a) - 60
    case Cancelled => w.job.cancelled
  }

  predicate Inv(w: World) { JobInv(w) && LogInv(w) }

  lemma EntryKeepsJobInv(w: World, i: Input)
    requires JobInv(w) && (w.place.Top? || w.place.Entering? || w.place.Selecting? || w.place.Stopped?)
    ensures JobInv(Go(w, i))
  {
  }

  lemma AdmissionKeepsJobInv(w: World, i: Input)
    requires JobInv(w) && (w.place.Claiming? || w.place.Admitting? || w.place.Reading? || w.place.Deciding?)
    ensures JobInv(Go(w, i))
  {
  }

  lemma StartKeepsJobInv(w: World, i: Input)
    requires JobInv(w) && (w.place.Confirming? || w.place.Starting?)
    ensures JobInv(Go(w, i))
  {
  }

  lemma OutcomeKeepsJobInv(w: World, i: Input)
    requires JobInv(w) && Acting(w.place)
    ensures JobInv(Go(w, i))
  {
  }

  lemma StepKeepsJobInv(w: World, e: Event)
    requires JobInv(w)
    ensures JobInv(Step(w, e))
  {
    if e.Worker? {
      hide JobInv, Go;
      if Acting(w.place) { OutcomeKeepsJobInv(w, e.input); }
      else if w.place.Confirming? || w.place.Starting? { StartKeepsJobInv(w, e.input); }
      else if Cleared(w.place) { AdmissionKeepsJobInv(w, e.input); }
      else { EntryKeepsJobInv(w, e.input); }
    }
  }

  lemma LogExtends(w: World, w': World, e: Happened)
    requires LogInv(w) && w'.log == w.log + [e] && Behind(w', e)
    requires forall k | 0 <= k < |w.log| :: Behind(w, w.log[k]) ==> Behind(w', w.log[k])
    requires Orderly(w.log + [e], |w.log|)
    requires w'.job.actions == w.job.actions + (if e.Started? then 1 else 0)
    requires w'.job.timing == w.job.timing + (if e.Started? && e.action == Timing then 1 else 0)
    requires w'.job.validation == w.job.validation + (if e.Started? && e.action == ValidationRead then 1 else 0)
    requires w'.job.certificate == w.job.certificate + (if e.Started? && e.action == CertificateRead then 1 else 0)
    ensures LogInv(w')
  {
    hide Behind;
    assert w'.log[..|w.log|] == w.log;
    forall k | 0 <= k < |w.log| ensures Orderly(w'.log, k) { assert Orderly(w.log, k); }
  }

  lemma LogStays(w: World, w': World)
    requires LogInv(w) && w'.log == w.log
    requires w'.job.actions == w.job.actions && w'.job.timing == w.job.timing
    requires w'.job.validation == w.job.validation && w'.job.certificate == w.job.certificate
    requires w'.job.issued == w.job.issued && (w.job.cancelled ==> w'.job.cancelled)
    ensures LogInv(w')
  {
    forall k | 0 <= k < |w.log| ensures Behind(w', w.log[k]) { assert Behind(w, w.log[k]); }
  }

  // What a step does to the log and to what the log is measured against.
  lemma StepShape(w: World, e: Event)
    requires JobInv(w)
    ensures var w' := Step(w, e);
            && (w.job.cancelled ==> w'.job.cancelled)
            && (|| (w'.log == w.log && Uncounted(w, w') && w'.job.issued == w.job.issued)
                || (w'.log == w.log + [Cancelled] && Uncounted(w, w') && w'.job.issued == w.job.issued
                    && w'.job.cancelled)
                || (w.place.Starting? && !w.job.cancelled
                    && w'.log == w.log + [Started(w.place.action, w.mono, w.job.generation - w.job.initial)]
                    && Counted(w, w', w.place.action) && w'.job.issued == Some(w.mono))
                || (w.place.Saving? && w'.log == w.log + [SavedAt(w.place.action, w.mono)] && Uncounted(w, w')
                    && w'.job.issued == Some(w.mono + Gap(w.place.action) - 60)))
  {
  }

  predicate Uncounted(w: World, w': World) {
    w'.job.actions == w.job.actions && w'.job.timing == w.job.timing
    && w'.job.validation == w.job.validation && w'.job.certificate == w.job.certificate
  }

  predicate Counted(w: World, w': World, a: Action) {
    && w'.job.actions == w.job.actions + 1
    && w'.job.timing == w.job.timing + (if a == Timing then 1 else 0)
    && w'.job.validation == w.job.validation + (if a == ValidationRead then 1 else 0)
    && w'.job.certificate == w.job.certificate + (if a == CertificateRead then 1 else 0)
  }

  lemma StepKeepsLogInv(w: World, e: Event)
    requires Inv(w)
    ensures LogInv(Step(w, e))
  {
    hide Step, Starts, StartsOf, Orderly;
    StepShape(w, e);
    var w' := Step(w, e);
    if w'.log == w.log {
      LogStays(w, w');
    } else {
      var last := w'.log[|w.log|];
      forall k | 0 <= k < |w.log| ensures Behind(w', w.log[k]) { assert Behind(w, w.log[k]); }
      if last.Started? { StartIsOrderly(w, last); } else { OthersAreOrderly(w.log, last); }
      LogExtends(w, w', last);
    }
  }

  lemma OthersAreOrderly(log: seq<Happened>, e: Happened)
    requires !e.Started?
    ensures Orderly(log + [e], |log|)
  {
  }

  lemma StartIsOrderly(w: World, e: Happened)
    requires Inv(w) && w.place.Starting? && !w.job.cancelled
    requires e == Started(w.place.action, w.mono, w.job.generation - w.job.initial)
    ensures Orderly(w.log + [e], |w.log|)
  {
    forall i | 0 <= i < |w.log|
      ensures match w.log[i]
              case Started(_, at, _) => e.at >= at + 60
              case SavedAt(a, at) => e.at >= at + Gap(a)
              case Cancelled => false
    {
      assert Behind(w, w.log[i]);
    }
  }

  /** Whatever is decided, however the clocks jump and whoever pauses the job: at most 160 actions start,
      at most 12 of each polled kind; every start has used fewer than 320 generations, comes a monotonic
      minute after every earlier start and five after every saved CA step, and none follows a cancellation. */
  lemma {:induction false} EveryRunIsOrderly(generation: int, wall: int, mono: int, events: seq<Event>)
    ensures var w := Run(Begin(generation, wall, mono), events);
            && Inv(w)
            && Starts(w.log) <= ACTION_LIMIT
            && StartsOf(w.log, Timing) <= POLL_LIMIT && StartsOf(w.log, ValidationRead) <= POLL_LIMIT
            && StartsOf(w.log, CertificateRead) <= POLL_LIMIT
            && forall k | 0 <= k < |w.log| :: Orderly(w.log, k)
  {
    hide Step, Orderly, Behind;
    if events != [] {
      EveryRunIsOrderly(generation, wall, mono, events[..|events| - 1]);
      var w := Run(Begin(generation, wall, mono), events[..|events| - 1]);
      StepKeepsJobInv(w, events[|events| - 1]);
      StepKeepsLogInv(w, events[|events| - 1]);
    }
  }

  // ---- What each region needs to go on, and what it leaves otherwise ----

  predicate WithinCycle(generation: int, initial: int) { 0 <= generation - initial < 320 }

  // The clocks let a tick go on: a monotonic minute since the last start or its floor, and the wall clock
  // at or past the next start on record.
  predicate Due(w: World, i: Input) {
    && (w.job.issued.Some? ==> w.mono >= w.job.issued.value + 60)
    && (w.job.next.Some? ==> i.wall >= w.job.next.value)
  }

  // The next start is on record, no earlier than it was and no earlier than the given time.
  predicate MovedTo(before: Option<int>, at: int, after: Option<int>) {
    after.Some? && after.value >= at && (before.Some? ==> after.value >= before.value)
    && (after.value == at || after == before)
  }

  // The wall time at which the monotonic minute will be over, while it is not.
  function MinuteOver(w: World, i: Input): Option<int> {
    if w.job.issued.Some? && w.mono < w.job.issued.value + 60 then Some(i.wall + w.job.issued.value + 60 - w.mono)
    else None
  }

  /** A tick's first region lets it go on if and only if the job's limits are not reached and the clocks let
      it; otherwise it pauses a job at its limit and leaves any other waiting for its next start. */
  lemma TicksGoOnExactly(w: World, i: Input)
    requires w.place == Entering
    ensures var w' := Go(w, i);
            var within := w.job.actions < 160 && WithinCycle(w.job.generation, w.job.initial);
            && (w'.place == Claiming(w.job.generation) <==> within && Due(w, i))
            && (w'.place != Claiming(w.job.generation) ==> w'.place == Selecting)
            && (!within && w.job.state != Complete ==> w'.job.state == Paused && w'.job.cancelled && w'.job.next.None?)
            && (within && !Due(w, i) ==>
                  && w'.job.state == Waiting && w'.job.cancelled == w.job.cancelled && w'.job.next.Some?
                  && i.wall < w'.job.next.value
                  && (if MinuteOver(w, i).Some? then MovedTo(w.job.next, MinuteOver(w, i).value, w'.job.next)
                      else w'.job.next == w.job.next))
  {
  }

  // The regions in which the session is looked at again.
  predicate Checks(p: Place) { p.Top? || p.Admitting? || p.Confirming? || p.Accepting? }

  /** Wherever the session is looked at again, a tick goes on only for an active job that was not cancelled,
      whose session holds and, past the first look, within the tick's own time; an active job whose session no
      longer holds, or that was cancelled, is paused there, and any other left as it is. */
  lemma SessionsAreCheckedExactly(w: World, i: Input)
    requires Checks(w.place)
    ensures var w' := Go(w, i);
            var active := w.job.state == Waiting || w.job.state == RunningNow;
            var holds := active && i.live && !w.job.cancelled;
            && (w'.place != Selecting ==> holds && (w.place.Top? || i.timely) && w'.job == w.job)
            && (holds && (w.place.Top? || i.timely) && (w.place.Confirming? ==> i.free) ==> w'.place != Selecting)
            && (active && !holds ==> w'.job == w.job.(state := Paused, next := None, cancelled := true))
            && (!active || (holds && !i.timely && !w.place.Top?) ==> w'.job == w.job)
  {
  }

  // The times this kind of read was carried out.
  function Polls(j: Job, a: Action): nat {
    match a
    case Timing => j.timing
    case ValidationRead => j.validation
    case CertificateRead => j.certificate
    case _ => 0
  }

  /** An action is carried out if and only if it was decided upon for a live job within its cycle and its kind
      was read fewer than twelve times; the job completes or waits as decided, and is paused otherwise. */
  lemma DecisionsAreTakenExactly(w: World, i: Input)
    requires w.place.Deciding? && Active(w.job)
    ensures var w', d := Go(w, i), w.place.decision;
            var live := !w.job.cancelled && WithinCycle(w.job.generation, w.job.initial);
            && (forall a :: w'.place == Confirming(w.place.expected, a) <==> live && d == Do(a) && Polls(w.job, a) < 12)
            && (w'.place.Confirming? ==> w'.job == w.job) && (!w'.place.Confirming? ==> w'.place == Selecting)
            && (w'.job.state == Complete <==> live && d == Finish)
            && (live && d.Wait? && d.next.Some? ==> w'.job == w.job.(state := Waiting, next := d.next))
            && (w.job.cancelled ==> w'.job == w.job)
            && (!w.job.cancelled && !w'.place.Confirming? && w'.job.state != Complete ==>
                  (live && d.Wait? && d.next.Some?) || (w'.job.state == Paused && w'.job.cancelled))
  {
  }

  predicate SavesOutcome(w: World, w': World) { |w'.log| > |w.log| && w'.log[|w.log|].SavedAt? }

  /** An outcome is taken over if and only if the job is live and the store moved on by at most three
      generations, still within the cycle; the next start is then a minute on, five after a step at the CA,
      by either clock. */
  lemma OutcomesAreTakenExactly(w: World, i: Input)
    requires w.place.Saving?
    ensures var w', g := Go(w, i), w.place.generation;
            var gap := if w.place.action in {Validate, ValidationRead, Certificate, CertificateRead, Timing} then 5 * 60
                else 60;
            var live := (w.job.state == Waiting || w.job.state == RunningNow) && !w.job.cancelled;
            && w'.place == Selecting
            && (SavesOutcome(w, w') <==>
                  live && w.place.expected <= g <= w.place.expected + 3 && g < w.job.initial + 320)
            && (SavesOutcome(w, w') ==>
                  && w'.log == w.log + [SavedAt(w.place.action, w.mono)]
                  && w'.job.state == Waiting && !w'.job.cancelled && w'.job.generation == g
                  && w'.job.last == i.wall && w'.job.next == Some(i.wall + gap)
                  && w'.job.issued == Some(w.mono + gap - 60) && w'.job.actions == w.job.actions)
            && (live && !SavesOutcome(w, w') ==> w'.job.state == Paused && w'.job.cancelled)
            && (!live ==> w'.job == w.job)
  {
  }

  /** A tick that finds a slot taken puts an active job off by a minute at least, and nothing else. */
  lemma BusyTicksAreDeferred(w: World, i: Input)
    requires !i.free && (w.place.Claiming? || (w.place.Confirming? && w.place.action != LocalAction))
    requires Active(w.job) && (w.place.Confirming? ==> i.live && i.timely && !w.job.cancelled)
    ensures var w' := Go(w, i);
            && w'.place == Selecting && MovedTo(w.job.next, i.wall + 60, w'.job.next)
            && w'.job == w.job.(state := Waiting, next := w'.job.next)
  {
  }

  // ---- The label of a cancelled job ----

  /** A cancelled job is labelled active again exactly by the first region of a tick that finds its next
      start still ahead: that region does not look at the label it overwrites. */
  lemma OnlyEnteringRelabels(w: World, i: Input)
    requires w.job.cancelled && !Active(w.job)
    ensures Active(Go(w, i).job) <==>
            && w.place == Entering
            && w.job.actions < ACTION_LIMIT && 0 <= w.job.generation - w.job.initial < CYCLE_EVENTS
            && var next := Spaced(w.job.(last := i.wall), i.wall, w.mono).next; next.Some? && i.wall < next.value
  {
  }

  // One more step of a run.
  lemma Next(start: World, events: seq<Event>, w: World, e: Event) returns (events': seq<Event>, w': World)
    requires Run(start, events) == w
    ensures events' == events + [e] && w' == Step(w, e) && Run(start, events') == w'
  {
    events', w' := events + [e], Step(w, e);
    assert events'[..|events|] == events;
  }

  const PLAIN := Worker(Input(true, true, 0, true, Some(Do(Timing)), Some(2)))

  // A tick as far as the confirmation of its timing read.
  lemma ConfirmTiming(start: World) returns (events: seq<Event>, w: World)
    requires start == Begin(1, 0, 0)
    ensures Run(start, events) == w && w == World(Fresh(1, 0), Confirming(1, Timing), 0, [])
  {
    hide Run;
    events, w := [], start;
    assert Run(start, events) == w by { NoEvents(start); }
    events, w := Next(start, events, w, PLAIN);
    events, w := Next(start, events, w, PLAIN);
    events, w := Next(start, events, w, PLAIN);
    events, w := Next(start, events, w, PLAIN);
    events, w := Next(start, events, w, PLAIN);
    events, w := Next(start, events, w, PLAIN);
  }

  // A whole tick that carries out and saves one timing read.
  lemma TickTiming(start: World) returns (events: seq<Event>, w: World)
    requires start == Begin(1, 0, 0)
    ensures Run(start, events) == w
    ensures w.place == Selecting && Active(w.job) && !w.job.cancelled && w.job.issued == Some(240)
            && w.job.actions == 1 && w.job.generation == 2 && w.job.initial == 1 && w.mono == 0
  {
    hide Run;
    events, w := ConfirmTiming(start);
    events, w := Next(start, events, w, PLAIN);
    events, w := Next(start, events, w, PLAIN);
    events, w := Next(start, events, w, PLAIN);
    events, w := Next(start, events, w, PLAIN);
    events, w := Next(start, events, w, PLAIN);
  }

  lemma NoEvents(w: World)
    ensures Run(w, []) == w
  {
  }

  /** A run in which a job paused between two regions ends up stopped and still labelled as waiting. */
  lemma StoppedButWaiting() returns (events: seq<Event>)
    ensures var w := Run(Begin(1, 0, 0), events); w.place == Stopped && w.job.cancelled && w.job.state == Waiting
  {
    hide Run;
    var start, w := Begin(1, 0, 0), Begin(1, 0, 0);
    events, w := TickTiming(start);
    var go := Worker(Input(true, true, 0, false, None, None));
    events, w := Next(start, events, w, go);
    events, w := Next(start, events, w, go);
    assert w.place == Entering;
    events, w := Next(start, events, w, Outside);
    events, w := Next(start, events, w, go);
    assert w.job.state == Waiting && w.job.cancelled;
    events, w := Next(start, events, w, go);
  }

  // ---- The job as the daemon holds it ----

  class Record {
    var actions: nat
    var timing: nat
    var validation: nat
    var certificate: nat
    var generation: int
    const initial: int
    var state: State
    var next: Option<int>
    var last: int
    var issued: Option<int>
    var cancelled: bool

    function Value(): Job
      reads this
    { Job(actions, timing, validation, certificate, generation, initial, state, next, last, issued, cancelled) }

    constructor (generation: int, wall: int)
      ensures Value() == Fresh(generation, wall)
    {
      actions, timing, validation, certificate := 0, 0, 0, 0;
      this.generation, initial, state := generation, generation, Waiting;
      next, last, issued, cancelled := None, wall, None, false;
    }

    method PauseLocked()
      modifies this
      ensures Value() == PauseJob(old(Value()))
    {
      if state == Complete { return; }
      state, next := Paused, None;
      cancelled := true;
    }

    predicate IsActive()
      reads this
    { state == Waiting || state == RunningNow }

    method CheckSession(live: bool) returns (ok: bool)
      modifies this
      ensures Value() == Checked(old(Value()), live) && ok == Permitted(old(Value()), live)
    {
      ok := live && IsActive() && !cancelled;
      if !ok && IsActive() { PauseLocked(); }
    }

    // The permit of a tick: the session first, then the tick's own time.
    method CheckPermit(i: Input) returns (ok: bool)
      modifies this
      ensures Value() == Checked(old(Value()), i.live) && ok == Allowed(old(Value()), i)
    {
      ok := CheckSession(i.live);
      ok := ok && i.timely;
    }

    // The runtime floor between starts, against any wall clock.
    method KeepSpacing(wall: int, mono: int)
      modifies this
      ensures Value() == Spaced(old(Value()), wall, mono)
    {
      if issued.Some? {
        var remaining := 60 - (mono - issued.value);
        if remaining > 0 { next := Later(next, wall + remaining); }
      }
    }

    method Enter(wall: int, mono: int) returns (on: bool)
      modifies this
      ensures (Value(), on) == Entered(old(Value()), wall, mono)
    {
      last := wall;
      if actions >= ACTION_LIMIT || generation < initial || generation - initial >= CYCLE_EVENTS {
        PauseLocked();
        return false;
      }
      KeepSpacing(wall, mono);
      if next.Some? && wall < next.value {
        state := Waiting;
        return false;
      }
      on := true;
    }

    method Defer(wall: int)
      modifies this
      ensures Value() == Deferred(old(Value()), wall)
    {
      if IsActive() {
        state, next := Waiting, Later(next, wall + 60);
      }
    }

    method Decide(d: Decision) returns (action: Option<Action>)
      modifies this
      ensures (Value(), action) == Decided(old(Value()), d)
    {
      action := None;
      if !IsActive() || cancelled { return; }
      if generation < initial || generation - initial >= CYCLE_EVENTS {
        PauseLocked();
        return;
      }
      match d
      case Pause => PauseLocked();
      case Finish => state, next, cancelled := Complete, None, true;
      case Wait(at) =>
        if at.None? { PauseLocked(); } else { state, next := Waiting, at; }
      case Do(a) =>
        if PollLimited(Value(), a) { PauseLocked(); } else { action := Some(a); }
    }

    method StartAction(a: Action, mono: int) returns (started: bool)
      modifies this
      ensures (Value(), started) == ActionStarted(old(Value()), a, mono)
    {
      if !IsActive() || cancelled { return false; }
      state, next := RunningNow, None;
      actions, issued := actions + 1, Some(mono);
      if a == Timing { timing := timing + 1; }
      else if a == ValidationRead { validation := validation + 1; }
      else if a == CertificateRead { certificate := certificate + 1; }
      started := true;
    }

    method SaveAction(a: Action, expected: int, saved: int, wall: int, mono: int) returns (ok: bool)
      modifies this
      ensures (Value(), ok) == ActionSaved(old(Value()), a, expected, saved, wall, mono)
    {
      if !IsActive() || cancelled { return false; }
      if saved < expected || saved - expected > 3 || saved - initial >= CYCLE_EVENTS {
        PauseLocked();
        return false;
      }
      generation, last, state := saved, wall, Waiting;
      var gap := 60;
      if a == Validate || a == ValidationRead || a == Certificate || a == CertificateRead || a == Timing { gap := 300; }
      next := Some(last + gap);
      issued := Some(mono + gap - 60);
      ok := true;
    }

    // failRenewal.
    method Fail()
      modifies this
      ensures Value() == if Active(old(Value())) then PauseJob(old(Value())) else old(Value())
    {
      if IsActive() { PauseLocked(); }
    }

    // The run so far has brought the worker here.
    ghost predicate At(start: World, events: seq<Event>, place: Place, mono: int)
      reads this
    {
      var w := Run(start, events);
      w.job == Value() && w.place == place && w.mono == mono
    }

    // What happens before a region gets the mutex: pauses and the passing of time.
    method Meanwhile(gap: Turn, mono: int, ghost start: World, ghost events: seq<Event>, ghost place: Place)
      returns (now: int, ghost later: seq<Event>)
      requires At(start, events, place, mono)
      modifies this
      ensures At(start, later, place, now) && later == events + Between(gap)
    {
      hide Run;
      ghost var w := Run(start, events);
      later := events;
      assert events + [] == events;
      if gap.paused {
        PauseLocked();
        later, w := Next(start, later, w, Outside);
      }
      now := mono + gap.elapsed;
      later, w := Next(start, later, w, Elapse(gap.elapsed));
    }

    // The session and the spacing.
    method Admit(script: seq<Turn>, mono: int, ghost start: World)
      returns (expected: Option<int>, now: int, ghost events: seq<Event>)
      requires |script| == REGIONS && At(start, [], Top, mono)
      modifies this
      ensures At(start, events, if expected.Some? then Claiming(expected.value) else Selecting, now)
      ensures Plays(script, events) && (expected.Some? ==> events == Schedule(script, 2))
    {
      hide Run, Schedule, Between, Checked, Entered, Permitted;
      expected := None;
      NothingPlayed(script);
      now, events := Meanwhile(script[0], mono, start, [], Top);
      var ok := CheckSession(script[0].input.live);
      events := Went(start, events, script[0].input);
      Played(script, 0, events);
      if !ok { return; }
      now, events := Meanwhile(script[1], now, start, events, Entering);
      ok := Enter(script[1].input.wall, now);
      if ok { expected := Some(generation); }
      events := Went(start, events, script[1].input);
      Played(script, 1, events);
    }

    // The derivation slot, and the session again.
    method Claim(script: seq<Turn>, expected: int, mono: int, ghost start: World, ghost before: seq<Event>)
      returns (ok: bool, now: int, ghost events: seq<Event>)
      requires |script| == REGIONS && At(start, before, Claiming(expected), mono) && before == Schedule(script, 2)
      modifies this
      ensures At(start, events, if ok then Reading(expected) else Selecting, now)
      ensures Plays(script, events) && (ok ==> events == Schedule(script, 4))
    {
      hide Run, Schedule, Between, Checked, Deferred, Allowed;
      ok := script[2].input.free;
      now, events := Meanwhile(script[2], mono, start, before, Claiming(expected));
      if !ok { Defer(script[2].input.wall); }
      events := Went(start, events, script[2].input);
      Played(script, 2, events);
      if !ok { return; }
      now, events := Meanwhile(script[3], now, start, events, Admitting(expected));
      ok := CheckPermit(script[3].input);
      events := Went(start, events, script[3].input);
      Played(script, 3, events);
    }

    // The stored state and the decision on it.
    method Choose(script: seq<Turn>, expected: int, mono: int, ghost start: World, ghost before: seq<Event>)
      returns (action: Option<Action>, now: int, ghost events: seq<Event>)
      requires |script| == REGIONS && At(start, before, Reading(expected), mono) && before == Schedule(script, 4)
      modifies this
      ensures At(start, events, if action.Some? then Confirming(expected, action.value) else Selecting, now)
      ensures Plays(script, events) && (action.Some? ==> events == Schedule(script, 6))
    {
      hide Run, Schedule, Between, Decided;
      action := None;
      now, events := Meanwhile(script[4], mono, start, before, Reading(expected));
      var decision := script[4].input.read;
      if decision.None? { Fail(); }
      events := Went(start, events, script[4].input);
      Played(script, 4, events);
      if decision.None? { return; }
      now, events := Meanwhile(script[5], now, start, events, Deciding(expected, decision.value));
      action := Decide(decision.value);
      events := Went(start, events, script[5].input);
      Played(script, 5, events);
    }

    // The session once more, the provider's slot, and the start.
    method Launch(script: seq<Turn>, expected: int, action: Action, mono: int, ghost start: World,
        ghost before: seq<Event>)
      returns (ok: bool, now: int, ghost events: seq<Event>)
      requires |script| == REGIONS && At(start, before, Confirming(expected, action), mono)
                && before == Schedule(script, 6)
      modifies this
      ensures At(start, events, if ok then Executing(expected, action) else Selecting, now)
      ensures Plays(script, events) && (ok ==> events == Schedule(script, 8))
    {
      hide Run, Schedule, Between, Checked, Deferred, ActionStarted, Allowed, Network;
      now, events := Meanwhile(script[6], mono, start, before, Confirming(expected, action));
      ok := CheckPermit(script[6].input);
      if ok { CheckedIsKept(Run(start, events).job, script[6].input); }
      var busy := ok && Network(action) && !script[6].input.free;
      if busy { Defer(script[6].input.wall); }
      events := Went(start, events, script[6].input);
      Played(script, 6, events);
      if !ok || busy { return false, now, events; }
      now, events := Meanwhile(script[7], now, start, events, Starting(expected, action));
      ok := StartAction(action, now);
      if !ok { NothingStarted(Run(start, events).job, action, now); }
      events := Went(start, events, script[7].input);
      Played(script, 7, events);
    }

    // The action's outcome, the session, and the outcome taken over.
    method Land(script: seq<Turn>, expected: int, action: Action, mono: int, ghost start: World,
        ghost before: seq<Event>)
      returns (now: int, ghost events: seq<Event>)
      requires |script| == REGIONS && At(start, before, Executing(expected, action), mono)
                && before == Schedule(script, 8)
      modifies this
      ensures At(start, events, Selecting, now) && Plays(script, events)
    {
      hide Run, Schedule, Between, Checked, ActionSaved, Allowed;
      now, events := Meanwhile(script[8], mono, start, before, Executing(expected, action));
      var outcome := script[8].input.outcome;
      if outcome.None? { Fail(); }
      events := Went(start, events, script[8].input);
      Played(script, 8, events);
      if outcome.None? { return; }
      now, events := Meanwhile(script[9], now, start, events, Accepting(expected, action, outcome.value));
      var ok := CheckPermit(script[9].input);
      events := Went(start, events, script[9].input);
      Played(script, 9, events);
      if !ok { return; }
      now, events := Meanwhile(script[10], now, start, events, Saving(expected, action, outcome.value));
      ok := SaveAction(action, expected, outcome.value, script[10].input.wall, now);
      events := Went(start, events, script[10].input);
      Played(script, 10, events);
    }

    /** tickRenewalJob: a tick is one run of the worker from its first region to its end, whatever
        happens to the job between its regions. */
    method Tick(script: seq<Turn>, mono: int, ghost start: World) returns (now: int, ghost events: seq<Event>)
      requires |script| == REGIONS && start.job == Value() && start.place == Top && start.mono == mono
      modifies this
      ensures At(start, events, Selecting, now) && Plays(script, events)
    {
      hide Run, Schedule, Between;
      assert Run(start, []) == start by { NoEvents(start); }
      var expected;
      expected, now, events := Admit(script, mono, start);
      if expected.None? { return; }
      var ok;
      ok, now, events := Claim(script, expected.value, now, start, events);
      if !ok { return; }
      var action;
      action, now, events := Choose(script, expected.value, now, start, events);
      if action.None? { return; }
      ok, now, events := Launch(script, expected.value, action.value, now, start, events);
      if !ok { return; }
      now, events := Land(script, expected.value, action.value, now, start, events);
    }
  }

  // The regions of a tick, and what comes before one of them: whether the job is paused, how long it
  // takes, and what the region finds.
  const REGIONS := 11

  datatype Turn = Turn(paused: bool, elapsed: nat, input: Input)

  // The events before a region, and those of a tick's first n regions.
  function Between(t: Turn): seq<Event> {
    (if t.paused then [Outside] else []) + [Elapse(t.elapsed)]
  }

  function Schedule(script: seq<Turn>, n: nat): seq<Event>
    requires n <= |script|
  {
    if n == 0 then [] else Schedule(script, n - 1) + Between(script[n - 1]) + [Worker(script[n - 1].input)]
  }

  // A tick plays its script as far as it goes, and adds nothing to it.
  predicate Plays(script: seq<Turn>, events: seq<Event>) {
    exists n: nat | n <= |script| :: events == Schedule(script, n)
  }

  lemma NothingPlayed(script: seq<Turn>)
    ensures Schedule(script, 0) == []
  {
  }

  lemma Played(script: seq<Turn>, k: nat, events: seq<Event>)
    requires k < |script| && events == Schedule(script, k) + Between(script[k]) + [Worker(script[k].input)]
    ensures events == Schedule(script, k + 1) && Plays(script, events)
  {
  }

  lemma Went(start: World, events: seq<Event>, i: Input) returns (more: seq<Event>)
    ensures more == events + [Worker(i)] && Run(start, more) == Go(Run(start, events), i)
  {
    more := events + [Worker(i)];
    assert more[..|events|] == events;
  }

  lemma CheckedIsKept(j: Job, i: Input)
    requires Allowed(j, i)
    ensures Checked(j, i.live) == j
  {
  }

  lemma NothingStarted(j: Job, a: Action, mono: int)
    requires !ActionStarted(j, a, mono).1
    ensures ActionStarted(j, a, mono).0 == j
  {
  }
}
