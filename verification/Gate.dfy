/**
 Sessions, workers and login attempts (cmd/rootwelld/gate.go, timing_watch.go, renewal_job.go,
 inventory_monitor.go): one step is one region under the gate's mutex, or the end of a worker.

 Session identities are hashes of fresh random tokens, so a new one is not stored yet.
 */
module Gate {
  import opened Common

  const MAX_SESSIONS := 32
  const MAX_LIFETIME := 43200

  type Id = int

  // ready: not setting up and holding the unlocked inventory.
  datatype Session = Session(setup: bool, ready: bool, expires: int, revision: int)

  // completed: a renewal that ended by itself; it was cancelled then. finished: its goroutine returned.
  datatype Worker = Worker(owner: Id, revision: int, expires: int, cancelled: bool, completed: bool, finished: bool)

  datatype System = System(
    sessions: map<Id, Session>, watch: Option<Worker>, renewal: Option<Worker>, closed: bool)

  const OPENED := System(map[], None, None, false)

  function Paused(w: Worker): Worker { if w.completed then w else w.(cancelled := true) }

  function PausedIf(w: Option<Worker>, owner: Id): Option<Worker> {
    if w.Some? && w.value.owner == owner then Some(Paused(w.value)) else w
  }

  // forgetSessionLocked.
  function Forget(s: System, id: Id): System {
    s.(renewal := PausedIf(s.renewal, id), watch := PausedIf(s.watch, id), sessions := s.sessions - {id})
  }

  // All of a set of sessions, whatever the order.
  function ForgetAll(s: System, ids: set<Id>): System {
    s.(renewal := if s.renewal.Some? && s.renewal.value.owner in ids then Some(Paused(s.renewal.value)) else s.renewal,
       watch := if s.watch.Some? && s.watch.value.owner in ids then Some(Paused(s.watch.value)) else s.watch,
       sessions := s.sessions - ids)
  }

  predicate Earliest(sessions: map<Id, Session>, id: Id) {
    id in sessions && forall k | k in sessions :: sessions[id].expires <= sessions[k].expires
  }

  predicate Done(w: Option<Worker>) { w.None? || w.value.finished }

  // The conditions a worker starts under, beside that no other is unfinished.
  predicate MayOwn(s: System, owner: Id, revision: int, expires: int, now: int) {
    && !s.closed && owner in s.sessions
    && var current := s.sessions[owner];
    && !current.setup && current.ready && current.revision == revision && current.expires == expires
    && now < expires && expires - now <= MAX_LIFETIME
  }

  datatype Step =
    | Issue(id: Id, setup: bool, ready: bool, revision: int, now: int, victim: Id)
    | Revoke(id: Id)
    | Check(id: Id, read: Option<int>, now: int)     // currentSession: forgets what no longer holds
    | RevokeAll
    | Sweep(read: Option<int>, now: int)             // the inventory monitor
    | StartWatch(owner: Id, revision: int, expires: int, now: int)
    | StartRenewal(owner: Id, revision: int, expires: int, now: int)
    | PauseWatch
    | PauseRenewal
    | CompleteRenewal
    | EndWatch                                           // the goroutine returns, once cancelled
    | EndRenewal
    | BeginClose
    | EndClose

  function Stale(s: System, revision: int, now: int): set<Id> {
    set id | id in s.sessions && (s.sessions[id].revision != revision || now >= s.sessions[id].expires)
  }

  function Ended(w: Option<Worker>): Option<Worker> {
    if w.Some? && w.value.cancelled then Some(w.value.(finished := true)) else w
  }

  function PausedAny(w: Option<Worker>): Option<Worker> { if w.Some? then Some(Paused(w.value)) else w }

  function Apply(s: System, e: Step): System {
    match e
    case Issue(id, setup, ready, revision, now, victim) =>
      if id in s.sessions then s else
      var room := if |s.sessions| >= MAX_SESSIONS then Forget(s, victim) else s;
      if |s.sessions| >= MAX_SESSIONS && !Earliest(s.sessions, victim) then s
      else room.(sessions := room.sessions[id := Session(setup, !setup
          && ready, now + (if setup then 900 else MAX_LIFETIME), revision)])
    case Revoke(id) => Forget(s, id)
    case Check(id, revision, now) =>
      if id !in s.sessions || revision.None? || s.sessions[id].revision != revision.value
          || now >= s.sessions[id].expires
      then Forget(s, id) else s
    case RevokeAll => ForgetAll(s, s.sessions.Keys)
    case Sweep(revision, now) =>
      if revision.None? then ForgetAll(s, s.sessions.Keys) else ForgetAll(s, Stale(s, revision.value, now))
    case StartWatch(owner, revision, expires, now) =>
      if !MayOwn(s, owner, revision, expires, now) || !Done(s.watch) || !Done(s.renewal) then s
      else s.(watch := Some(Worker(owner, revision, expires, false, false, false)))
    case StartRenewal(owner, revision, expires, now) =>
      if !MayOwn(s, owner, revision, expires, now) || !Done(s.watch) || !Done(s.renewal) then s
      else s.(renewal := Some(Worker(owner, revision, expires, false, false, false)))
    case PauseWatch => s.(watch := PausedAny(s.watch))
    case PauseRenewal => s.(renewal := PausedAny(s.renewal))
    case CompleteRenewal =>
      if s.renewal.None? || s.renewal.value.cancelled then s
      else s.(renewal := Some(s.renewal.value.(cancelled := true, completed := true)))
    case EndWatch => s.(watch := Ended(s.watch))
    case EndRenewal => s.(renewal := Ended(s.renewal))
    case BeginClose => s.(closed := true, renewal := PausedAny(s.renewal), watch := PausedAny(s.watch))
    case EndClose =>
      if !s.closed || !Done(s.watch) || !Done(s.renewal) then s else ForgetAll(s, s.sessions.Keys)
  }

  function Run(steps: seq<Step>): System {
    if steps == [] then OPENED else Apply(Run(steps[..|steps| - 1]), steps[|steps| - 1])
  }

  // ---- What every step keeps ----

  // A worker that may still act belongs to a stored, ready session of the same revision and expiry.
  predicate Owned(s: System, w: Option<Worker>) {
    w.Some? ==>
      && (w.value.finished || w.value.completed ==> w.value.cancelled)
      && (!w.value.cancelled ==>
            && !s.closed && w.value.owner in s.sessions
            && var current := s.sessions[w.value.owner];
            && !current.setup && current.ready && current.revision == w.value.revision
                && current.expires == w.value.expires)
  }

  predicate Inv(s: System) {
    && |s.sessions| <= MAX_SESSIONS
    && (Done(s.watch) || Done(s.renewal))
    && Owned(s, s.watch) && Owned(s, s.renewal)
  }

  lemma RemovalShrinks(m: map<Id, Session>, ids: set<Id>)
    ensures |m - ids| <= |m| && (ids * m.Keys != {} ==> |m - ids| < |m|)
  {
    assert (m - ids).Keys == m.Keys - ids;
    assert m.Keys == (m - ids).Keys + (ids * m.Keys);
    assert |m.Keys| == |m| && |(m - ids).Keys| == |m - ids|;
    assert |m.Keys| == |(m - ids).Keys| + |ids * m.Keys|;
  }

  lemma InsertionGrows(m: map<Id, Session>, id: Id, s: Session)
    ensures |m[id := s]| <= |m| + 1
  {
    assert m[id := s].Keys == m.Keys + {id};
    assert |m.Keys| == |m| && |m[id := s].Keys| == |m[id := s]|;
  }

  lemma ForgetKeepsInv(s: System, id: Id)
    requires Inv(s)
    ensures Inv(Forget(s, id)) && (id in s.sessions ==> |Forget(s, id).sessions| < |s.sessions|)
  {
    RemovalShrinks(s.sessions, {id});
    assert id in s.sessions ==> id in {id} * s.sessions.Keys;
  }

  lemma ForgetAllKeepsInv(s: System, ids: set<Id>)
    requires Inv(s)
    ensures Inv(ForgetAll(s, ids))
  {
    RemovalShrinks(s.sessions, ids);
  }

  lemma IssueKeepsInv(s: System, e: Step)
    requires Inv(s) && e.Issue?
    ensures Inv(Apply(s, e))
  {
    ForgetKeepsInv(s, e.victim);
    var room := if |s.sessions| >= MAX_SESSIONS then Forget(s, e.victim) else s;
    var issued := Session(e.setup, !e.setup && e.ready, e.now + (if e.setup then 900 else MAX_LIFETIME), e.revision);
    InsertionGrows(room.sessions, e.id, issued);
  }

  lemma ApplyKeepsInv(s: System, e: Step)
    requires Inv(s)
    ensures Inv(Apply(s, e))
  {
    match e
    case Issue(_, _, _, _, _, _) => IssueKeepsInv(s, e);
    case Revoke(id) => ForgetKeepsInv(s, id);
    case Check(id, _, _) => ForgetKeepsInv(s, id);
    case RevokeAll => ForgetAllKeepsInv(s, s.sessions.Keys);
    case EndClose => ForgetAllKeepsInv(s, s.sessions.Keys);
    case Sweep(revision, now) =>
      if revision.None? { ForgetAllKeepsInv(s, s.sessions.Keys); }
          else { ForgetAllKeepsInv(s, Stale(s, revision.value, now)); }
    case _ =>
  }

  // An unfinished worker is replaced by nothing but itself.
  predicate Survives(before: Option<Worker>, after: Option<Worker>) {
    before.Some? && !before.value.finished ==>
      && after.Some? && after.value.owner == before.value.owner && after.value.revision == before.value.revision
      && after.value.expires == before.value.expires && (before.value.cancelled ==> after.value.cancelled)
  }

  /** Over every interleaving: at most 32 sessions, at most one unfinished worker, and a worker that may
      still act is owned by a stored ready session of its own revision and expiry. */
  lemma {:induction false} EveryRunIsSound(steps: seq<Step>)
    ensures Inv(Run(steps))
  {
    if steps != [] {
      hide Apply;
      EveryRunIsSound(steps[..|steps| - 1]);
      ApplyKeepsInv(Run(steps[..|steps| - 1]), steps[|steps| - 1]);
    }
  }

  // What one step can do to a worker's slot; a new worker only takes the place of a finished one.
  predicate Fate(before: Option<Worker>, after: Option<Worker>, closed: bool) {
    || after == before || after == PausedAny(before) || after == Ended(before)
    || (Done(before) && !closed)
    || (before.Some? && !before.value.cancelled && after == Some(before.value.(cancelled := true, completed := true)))
  }

  lemma StepFates(s: System, e: Step)
    ensures Fate(s.watch, Apply(s, e).watch, s.closed) && Fate(s.renewal, Apply(s, e).renewal, s.closed)
    ensures s.closed ==> Apply(s, e).closed
  {
    hide Stale, Earliest;
  }

  lemma FateSurvives(before: Option<Worker>, after: Option<Worker>, closed: bool)
    requires Fate(before, after, closed)
    ensures Survives(before, after) && (closed && Done(before) ==> Done(after))
  {
  }

  /** No step overwrites an unfinished worker or revives a cancelled one, and after closing none starts. */
  lemma WorkersAreNeverOverwritten(s: System, e: Step)
    requires Inv(s)
    ensures Survives(s.watch, Apply(s, e).watch) && Survives(s.renewal, Apply(s, e).renewal)
    ensures s.closed ==>
              && Apply(s, e).closed
              && (Done(s.watch) && Done(s.renewal) ==> Done(Apply(s, e).watch) && Done(Apply(s, e).renewal))
  {
    hide Apply, Fate, Survives, Done;
    StepFates(s, e);
    FateSurvives(s.watch, Apply(s, e).watch, s.closed);
    FateSurvives(s.renewal, Apply(s, e).renewal, s.closed);
  }

  /** Forgetting a set of sessions one by one, in any order, forgets them all at once. */
  lemma {:induction false} ForgettingCommutes(s: System, ids: seq<Id>)
    ensures ForgetEach(s, ids) == ForgetAll(s, set id | id in ids)
  {
    if ids == [] {
      assert s.sessions - (set id | id in ids) == s.sessions;
    } else {
      var front, last := ids[..|ids| - 1], ids[|ids| - 1];
      ForgettingCommutes(s, front);
      assert (set id | id in ids) == (set id | id in front) + {last};
      assert s.sessions - (set id | id in ids) == (s.sessions - (set id | id in front)) - {last};
    }
  }

  function ForgetEach(s: System, ids: seq<Id>): System {
    if ids == [] then s else Forget(ForgetEach(s, ids[..|ids| - 1]), ids[|ids| - 1])
  }

  // ---- How long a session lasts, and a worker ----

  // The session is still good: of the access file as it was read, and within its time.
  predicate Good(s: Session, read: Option<int>, now: int) {
    read.Some? && s.revision == read.value && now < s.expires
  }

  // The step takes the session away: it is revoked, it no longer holds when looked at, it gives way to a
  // new one as the earliest of 32 to expire, or everything ends.
  predicate Takes(s: System, e: Step, id: Id)
    requires id in s.sessions
  {
    match e
    case Issue(new', _, _, _, _, victim) =>
      && new' !in s.sessions && |s.sessions| >= 32 && victim == id
      && forall k | k in s.sessions :: s.sessions[id].expires <= s.sessions[k].expires
    case Revoke(which) => which == id
    case Check(which, read, now) => which == id && !Good(s.sessions[id], read, now)
    case RevokeAll => true
    case Sweep(read, now) => !Good(s.sessions[id], read, now)
    case EndClose =>
      && s.closed && (s.watch.None? || s.watch.value.finished) && (s.renewal.None? || s.renewal.value.finished)
    case _ => false
  }

  // A new session lasts a quarter of an hour while setting up, twelve hours otherwise, and is ready only if
  // it is not setting up.
  predicate Opens(s: System, e: Step) {
    && e.Issue? && e.id !in s.sessions
    && (|s.sessions| < 32 || (e.victim in s.sessions && Takes(s, e, e.victim)))
  }

  // What a step leaves of one session.
  predicate Lasts(s: System, e: Step, id: Id) {
    var s' := Apply(s, e);
    && (id in s'.sessions <==> (id in s.sessions && !Takes(s, e, id)) || (Opens(s, e) && e.id == id))
    && (id in s'.sessions && id in s.sessions ==> s'.sessions[id] == s.sessions[id])
    && (Opens(s, e) && e.id == id ==>
          s'.sessions[id] == Session(e.setup, e.ready && !e.setup,
            if e.setup then e.now + 15 * 60 else e.now + 12 * 60 * 60, e.revision))
  }

  lemma ForgettingLeaves(s: System, ids: set<Id>, id: Id)
    ensures var s' := ForgetAll(s, ids);
            && (id in s'.sessions <==> id in s.sessions && id !in ids)
            && (id in s'.sessions ==> s'.sessions[id] == s.sessions[id])
    ensures Forget(s, id).sessions == ForgetAll(s, {id}).sessions && Forget(s, id).closed == s.closed
  {
  }

  lemma IssueLasts(s: System, e: Step, id: Id)
    requires e.Issue?
    ensures Lasts(s, e, id)
  {
    hide ForgetAll, Forget;
    ForgettingLeaves(s, {e.victim}, id);
    ForgettingLeaves(s, {}, e.victim);
    EvictionForgets(s, e.victim);
  }

  lemma EvictionForgets(s: System, victim: Id)
    ensures Forget(s, victim).sessions == ForgetAll(s, {victim}).sessions
  {
  }

  lemma EndingLasts(s: System, e: Step, id: Id)
    requires !e.Issue?
    ensures Lasts(s, e, id)
  {
    hide ForgetAll, Forget;
    match e
    case Revoke(which) => EvictionForgets(s, which); ForgettingLeaves(s, {which}, id);
    case Check(which, _, _) => EvictionForgets(s, which); ForgettingLeaves(s, {which}, id);
    case Sweep(read, now) =>
      ForgettingLeaves(s, if read.None? then s.sessions.Keys else Stale(s, read.value, now), id);
    case _ => ForgettingLeaves(s, s.sessions.Keys, id);
  }

  /** A session is there after a step exactly if it was there and the step does not take it, unchanged, or the
      step has just opened it. */
  lemma SessionsLastExactly(s: System, e: Step, id: Id)
    ensures var s' := Apply(s, e);
            && (id in s'.sessions <==> (id in s.sessions && !Takes(s, e, id)) || (Opens(s, e) && e.id == id))
            && (id in s'.sessions && id in s.sessions ==> s'.sessions[id] == s.sessions[id])
            && (Opens(s, e) && e.id == id ==>
                  s'.sessions[id] == Session(e.setup, e.ready && !e.setup,
                    if e.setup then e.now + 15 * 60 else e.now + 12 * 60 * 60, e.revision))
  {
    hide Apply, Takes, Opens;
    if e.Issue? { IssueLasts(s, e, id); } else { EndingLasts(s, e, id); }
  }

  // The step cancels a worker that was not: it takes its owner's session, pauses this kind or any, closes
  // the gate, or, for a renewal, it has completed.
  predicate Stops(s: System, e: Step, w: Worker, renewing: bool) {
    || (w.owner in s.sessions && Takes(s, e, w.owner))
    || (e.Revoke? && e.id == w.owner) || (e.Check? && e.id == w.owner && w.owner !in s.sessions)
    || e.BeginClose? || (if renewing then e.PauseRenewal? || e.CompleteRenewal? else e.PauseWatch?)
  }

  // The step starts a worker: for a ready session of this revision and expiry, within its time, while
  // neither worker is unfinished.
  predicate Starts(s: System, e: Step, renewing: bool) {
    && (if renewing then e.StartRenewal? else e.StartWatch?)
    && !s.closed && e.owner in s.sessions
    && s.sessions[e.owner] == Session(false, true, e.expires, e.revision)
    && e.now < e.expires <= e.now + 12 * 60 * 60
    && (s.watch.None? || s.watch.value.finished) && (s.renewal.None? || s.renewal.value.finished)
  }

  // What a step leaves of one worker's slot.
  predicate Leaves(s: System, e: Step, w: Option<Worker>, w': Option<Worker>, renewing: bool) {
    if Starts(s, e, renewing) then w' == Some(Worker(e.owner, e.revision, e.expires, false, false, false))
    else if w.None? then w'.None?
    else
      && w'.Some? && w'.value.owner == w.value.owner && w'.value.revision == w.value.revision
      && w'.value.expires == w.value.expires
      && w'.value.cancelled == (w.value.cancelled || (!w.value.completed && Stops(s, e, w.value, renewing)))
      && w'.value.completed == (w.value.completed || (renewing && e.CompleteRenewal? && !w.value.cancelled))
      && w'.value.finished
         == (w.value.finished || (w.value.cancelled && if renewing then e.EndRenewal? else e.EndWatch?))
  }

  predicate Ends(e: Step) { e.Issue? || e.Revoke? || e.Check? || e.RevokeAll? || e.Sweep? || e.EndClose? }

  // What forgetting leaves of a worker's slot, the owner's session among those that went or not.
  function Kept(w: Option<Worker>, gone: bool): Option<Worker> {
    if w.Some? && gone && !w.value.completed then Some(w.value.(cancelled := true)) else w
  }

  // Whose workers a step stops.
  predicate Concerns(s: System, e: Step, owner: Id) {
    match e
    case Issue(new', _, _, _, _, victim) =>
      new' !in s.sessions && |s.sessions| >= 32 && Earliest(s.sessions, victim) && owner == victim
    case Revoke(which) => which == owner
    case Check(which, read, now) => which == owner && !(owner in s.sessions && Good(s.sessions[owner], read, now))
    case RevokeAll => owner in s.sessions
    case Sweep(read, now) => owner in s.sessions && !Good(s.sessions[owner], read, now)
    case EndClose => owner in s.sessions && s.closed && Done(s.watch) && Done(s.renewal)
    case _ => false
  }

  lemma ForgettingStops(s: System, id: Id, ids: set<Id>)
    ensures var f := Forget(s, id);
            && f.watch == Kept(s.watch, s.watch.Some? && s.watch.value.owner == id)
            && f.renewal == Kept(s.renewal, s.renewal.Some? && s.renewal.value.owner == id)
    ensures var f := ForgetAll(s, ids);
            && f.watch == Kept(s.watch, s.watch.Some? && s.watch.value.owner in ids)
            && f.renewal == Kept(s.renewal, s.renewal.Some? && s.renewal.value.owner in ids)
  {
  }

  lemma OwnersAreConcerned(s: System, e: Step)
    requires Ends(e)
    ensures Apply(s, e).watch == Kept(s.watch, s.watch.Some? && Concerns(s, e, s.watch.value.owner))
    ensures Apply(s, e).renewal == Kept(s.renewal, s.renewal.Some? && Concerns(s, e, s.renewal.value.owner))
  {
    hide Earliest, Forget, ForgetAll;
    match e
    case Issue(_, _, _, _, _, victim) => ForgettingStops(s, victim, {});
    case Revoke(which) => ForgettingStops(s, which, {});
    case Check(which, _, _) => ForgettingStops(s, which, {});
    case Sweep(read, now) => ForgettingStops(s, 0, if read.None? then s.sessions.Keys else Stale(s, read.value, now));
    case _ => ForgettingStops(s, 0, s.sessions.Keys);
  }

  lemma ConcernsAreStops(s: System, e: Step, w: Worker, renewing: bool)
    requires Ends(e) && !w.cancelled && w.owner in s.sessions
    ensures Concerns(s, e, w.owner) <==> Stops(s, e, w, renewing)
  {
  }

  lemma EndedSessionsStopWorkers(s: System, e: Step)
    requires Inv(s) && Ends(e)
    ensures Leaves(s, e, s.watch, Apply(s, e).watch, false) && Leaves(s, e, s.renewal, Apply(s, e).renewal, true)
  {
    hide Apply, Concerns, Stops;
    OwnersAreConcerned(s, e);
    if s.watch.Some? && !s.watch.value.cancelled { ConcernsAreStops(s, e, s.watch.value, false); }
    if s.renewal.Some? && !s.renewal.value.cancelled { ConcernsAreStops(s, e, s.renewal.value, true); }
  }

  lemma WatchLasts(s: System, e: Step)
    requires Inv(s) && !Ends(e)
    ensures Leaves(s, e, s.watch, Apply(s, e).watch, false)
  {
  }

  lemma RenewalLasts(s: System, e: Step)
    requires Inv(s) && !Ends(e)
    ensures Leaves(s, e, s.renewal, Apply(s, e).renewal, true)
  {
  }

  /** A worker starts, is cancelled, completes and finishes exactly when the step says so, and in no other
      way does a step touch it. */
  lemma WorkersLastExactly(s: System, e: Step)
    requires Inv(s)
    ensures Leaves(s, e, s.watch, Apply(s, e).watch, false) && Leaves(s, e, s.renewal, Apply(s, e).renewal, true)
  {
    hide Apply, Leaves;
    if Ends(e) {
      EndedSessionsStopWorkers(s, e);
    } else {
      WatchLasts(s, e);
      RenewalLasts(s, e);
    }
  }

  // ---- Login attempts ----

  const WINDOW := 60
  const MAX_ATTEMPTS := 5

  // The attempts still inside the window.
  function Recent(attempts: seq<int>, now: int): (r: seq<int>)
    ensures |r| <= |attempts|
  {
    if attempts == [] then []
    else
      var front := Recent(attempts[..|attempts| - 1], now);
      if now - attempts[|attempts| - 1] < WINDOW then front + [attempts[|attempts| - 1]] else front
  }

  // What is remembered, and every attempt that was allowed, after attempts at these times.
  function Attempts(times: seq<int>): (r: (seq<int>, seq<int>)) {
    if times == [] then ([], []) else
    var (kept, allowed) := Attempts(times[..|times| - 1]);
    var now := times[|times| - 1];
    var recent := Recent(kept, now);
    if |recent| >= MAX_ATTEMPTS then (recent, allowed) else (recent + [now], allowed + [now])
  }

  predicate Ordered(times: seq<int>) { forall i, j | 0 <= i < j < |times| :: times[i] <= times[j] }

  // The first n are a window old, the rest are not.
  predicate Splits(attempts: seq<int>, now: int, n: nat) {
    && n <= |attempts|
    && (forall i | 0 <= i < n :: now - attempts[i] >= WINDOW)
    && (forall i | n <= i < |attempts| :: now - attempts[i] < WINDOW)
  }

  lemma SplitGrows(front: seq<int>, last: int, now: int, n: nat)
    requires Splits(front, now, n) && forall i | 0 <= i < |front| :: front[i] <= last
    ensures now - last < WINDOW ==> Splits(front + [last], now, n) && (front + [last])[n..] == front[n..] + [last]
    ensures now - last >= WINDOW ==> n == |front| && Splits(front + [last], now, n + 1)
  {
    assert n < |front| ==> front[n] <= last;
  }

  // On an ordered list what is recent is a suffix, and everything before it is a window old.
  lemma {:induction false} RecentIsSuffix(attempts: seq<int>, now: int) returns (n: nat)
    requires Ordered(attempts)
    ensures Splits(attempts, now, n) && Recent(attempts, now) == attempts[n..]
  {
    n := 0;
    if attempts != [] {
      var last := |attempts| - 1;
      FrontIsOrdered(attempts);
      n := RecentIsSuffix(attempts[..last], now);
      RecentUnfolds(attempts, now);
      hide Ordered, Recent, Splits;
      SplitGrows(attempts[..last], attempts[last], now, n);
      assert attempts == attempts[..last] + [attempts[last]];
      if now - attempts[last] >= WINDOW { n := n + 1; }
    }
  }

  lemma FrontIsOrdered(attempts: seq<int>)
    requires Ordered(attempts) && attempts != []
    ensures Ordered(attempts[..|attempts| - 1])
    ensures var front := attempts[..|attempts| - 1]; forall i | 0 <= i < |front| ::
              front[i] == attempts[i] <= attempts[|attempts| - 1]
  {
  }

  lemma RecentUnfolds(attempts: seq<int>, now: int)
    requires attempts != []
    ensures var last := attempts[|attempts| - 1];
            Recent(attempts, now) == Recent(attempts[..|attempts| - 1], now)
                + (if now - last < WINDOW then [last] else [])
  {
  }

  // What is remembered is the end of what was allowed; the rest is a window old.
  predicate Remembers(kept: seq<int>, allowed: seq<int>, now: int) {
    && |kept| <= |allowed| && kept == allowed[|allowed| - |kept|..]
    && Ordered(allowed) && (forall i | 0 <= i < |allowed| :: allowed[i] <= now)
    && forall i | 0 <= i < |allowed| - |kept| :: now - allowed[i] >= WINDOW
  }

  predicate Spread(allowed: seq<int>) {
    forall i | 0 <= i < |allowed| - MAX_ATTEMPTS :: allowed[i + MAX_ATTEMPTS] - allowed[i] >= WINDOW
  }

  lemma Narrow(kept: seq<int>, allowed: seq<int>, before: int, now: int)
    requires Remembers(kept, allowed, before) && before <= now
    ensures Remembers(Recent(kept, now), allowed, now)
  {
    SuffixIsOrdered(allowed, |allowed| - |kept|);
    var n := RecentIsSuffix(kept, now);
    var from := |allowed| - |kept| + n;
    assert kept[n..] == allowed[from..];
    forall i | 0 <= i < from ensures now - allowed[i] >= WINDOW {
      if i >= |allowed| - |kept| { assert allowed[i] == kept[i - (|allowed| - |kept|)]; }
    }
  }

  lemma Allow(recent: seq<int>, allowed: seq<int>, now: int)
    requires Remembers(recent, allowed, now) && |recent| < MAX_ATTEMPTS && Spread(allowed)
    ensures Remembers(recent + [now], allowed + [now], now) && Spread(allowed + [now])
  {
  }

  /** With a clock that does not go back, no sixty seconds ever hold more than five allowed attempts. */
  lemma {:induction false} FiveAMinute(times: seq<int>)
    requires Ordered(times)
    ensures Spread(Attempts(times).1)
    ensures times != [] ==> Remembers(Attempts(times).0, Attempts(times).1, times[|times| - 1])
  {
    if times != [] {
      hide Recent, Remembers, Spread;
      var before, now := times[..|times| - 1], times[|times| - 1];
      FiveAMinute(before);
      var (kept, allowed) := Attempts(before);
      if before == [] {
        NothingRemembered(now);
      } else {
        assert before[|before| - 1] == times[|times| - 2];
        Narrow(kept, allowed, before[|before| - 1], now);
      }
      if |Recent(kept, now)| < MAX_ATTEMPTS {
        Allow(Recent(kept, now), allowed, now);
      }
    }
  }

  lemma NothingRemembered(now: int)
    ensures Remembers([], [], now) && Recent([], now) == [] && Spread([])
  {
  }

  lemma SuffixIsOrdered(s: seq<int>, n: nat)
    requires Ordered(s) && n <= |s|
    ensures Ordered(s[n..])
  {
  }

  // ---- The gate as it runs ----

  // Some element, as iterating over a map yields one.
  method Pick(ids: set<Id>) returns (id: Id)
    requires ids != {}
    ensures id in ids
  {
    Inhabited(ids);
    id :| id in ids;
  }

  lemma Inhabited(ids: set<Id>)
    requires ids != {}
    ensures exists k :: k in ids
  {
    if !exists k :: k in ids { assert false; }
  }

  class Daemon {
    var sessions: map<Id, Session>
    var watch: Option<Worker>
    var renewal: Option<Worker>
    var closed: bool
    var attempts: seq<int>

    function State(): System
      reads this
    { System(sessions, watch, renewal, closed) }

    constructor ()
      ensures State() == OPENED && attempts == []
    {
      sessions, watch, renewal, closed, attempts := map[], None, None, false, [];
    }

    /** allowAttempt: filters what is remembered, then allows at most five. */
    method AllowAttempt(now: int) returns (ok: bool)
      modifies `attempts
      ensures var recent := Recent(old(attempts), now);
              && ok == (|recent| < MAX_ATTEMPTS)
              && attempts == if ok then recent + [now] else recent
    {
      var keep := [];
      for i := 0 to |attempts|
        invariant attempts == old(attempts)
        invariant keep == Recent(attempts[..i], now)
      {
        assert attempts[..i + 1][..i] == attempts[..i];
        if now - attempts[i] < WINDOW { keep := keep + [attempts[i]]; }
      }
      assert attempts[..|attempts|] == attempts;
      attempts := keep;
      if |attempts| >= MAX_ATTEMPTS { return false; }
      attempts := attempts + [now];
      ok := true;
    }

    method ForgetSession(id: Id)
      modifies `sessions, `watch, `renewal
      ensures State() == Forget(old(State()), id)
    {
      if renewal.Some? && renewal.value.owner == id && !renewal.value.completed {
        renewal := Some(renewal.value.(cancelled := true));
      }
      if watch.Some? && watch.value.owner == id && !watch.value.completed {
        watch := Some(watch.value.(cancelled := true));
      }
      sessions := sessions - {id};
    }

    method Oldest() returns (id: Id)
      requires |sessions| > 0
      ensures Earliest(sessions, id)
    {
      var keys := sessions.Keys;
      assert |keys| == |sessions|;
      id := Pick(keys);
      keys := keys - {id};
      while keys != {}
        invariant id in sessions && keys <= sessions.Keys
        invariant forall k | k in sessions && k !in keys :: sessions[id].expires <= sessions[k].expires
        decreases |keys|
      {
        var k := Pick(keys);
        if sessions[k].expires < sessions[id].expires { id := k; }
        keys := keys - {k};
      }
    }

    /** issueSession: makes room by forgetting the earliest to expire, then stores the new session. */
    method IssueSession(id: Id, setup: bool, ready: bool, revision: int, now: int) returns (victim: Id)
      requires Inv(State()) && id !in sessions
      modifies `sessions, `watch, `renewal
      ensures State() == Apply(old(State()), Issue(id, setup, ready, revision, now, victim)) && id in sessions
      ensures Inv(State())
    {
      victim := id;
      ghost var before := State();
      if |sessions| >= MAX_SESSIONS {
        victim := Oldest();
        ForgetKeepsInv(before, victim);
        ForgetSession(victim);
      }
      IssueKeepsInv(before, Issue(id, setup, ready, revision, now, victim));
      sessions := sessions[id := Session(setup, !setup
          && ready, now + (if setup then 900 else MAX_LIFETIME), revision)];
    }

    /** Forgets a set of sessions one after the other. */
    method ForgetThem(ids: set<Id>)
      modifies `sessions, `watch, `renewal
      ensures State() == ForgetAll(old(State()), ids)
    {
      var rest := ids;
      ghost var start := State();
      assert State() == ForgetAll(start, ids - rest) by { assert ids - rest == {}; assert sessions - {} == sessions; }
      while rest != {}
        invariant rest <= ids
        invariant State() == ForgetAll(start, ids - rest)
        decreases |rest|
      {
        var id := Pick(rest);
        ForgetSession(id);
        assert start.sessions - (ids - (rest - {id})) == (start.sessions - (ids - rest)) - {id};
        rest := rest - {id};
      }
      assert ids - rest == ids;
    }

    method StartWorker(isWatch: bool, owner: Id, revision: int, expires: int, now: int) returns (ok: bool)
      modifies `watch, `renewal
      ensures State() == Apply(old(State()), if isWatch then StartWatch(owner, revision, expires, now)
                else StartRenewal(owner, revision, expires, now))
      ensures ok == (MayOwn(old(State()), owner, revision, expires, now) && Done(old(watch)) && Done(old(renewal)))
    {
      if !MayOwn(State(), owner, revision, expires, now) { return false; }
      if (watch.Some? && !watch.value.finished) || (renewal.Some? && !renewal.value.finished) { return false; }
      if isWatch {
        watch := Some(Worker(owner, revision, expires, false, false, false));
      } else {
        renewal := Some(Worker(owner, revision, expires, false, false, false));
      }
      ok := true;
    }
  }
}
