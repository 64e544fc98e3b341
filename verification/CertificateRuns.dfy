/**
 Whole certificate operations: the client's loop over authorizations interleaved with any round
 trips (certificateOrder in internal/acmestaging/certificate.go), against any server. Finalize is
 sent at most once, and only after every requested name was seen valid exactly once.
 */
module CertificateRuns {
  import opened Common
  import opened AcmeWire
  import opened Conversation
  import opened CertificateTransport

  // The operation: the transport, the order's status, the authorizations and the certificate chain as
  // delivered, the client's place in its loop and the names it has seen; closed once the client has returned.
  datatype Session = Session(
    guard: Guard, status: Option<Status>, delivered: map<Url, Content>, chain: seq<string>,
    taken: nat, seen: set<string>, closed: bool)

  datatype Action =
    | RoundTrip(turn: Turn)
    | Take(allowed: bool)                   // look at the next authorization's answer
    | Complete(allowed: bool, now: Stamp)   // the loop has ended

  function Begin(g: Guard): Session { Session(g, None, map[], [], 0, {}, false) }

  // The answers the client keeps.
  function Keep(s: Session, url: Url, r: Result): Session {
    var next := s.(guard := r.guard);
    if r.delivered.None? then next
    else if r.delivered.value.Authorization? then next.(delivered := s.delivered[url := r.delivered.value])
    else if r.delivered.value.Order? && url == OrderUrl(s.guard.job.order) then
      next.(status := Some(r.delivered.value.status))
    else if r.delivered.value.Chain? then next.(chain := r.delivered.value.der)
    else next
  }

  // The client goes on only with a ready order, or on a refresh with an issued one.
  predicate Proceeds(s: Session) {
    s.status == Some(if s.guard.job.refresh then Valid else Ready)
  }

  function TakeNext(s: Session, allowed: bool): Session {
    if s.taken >= |s.guard.terms.authz| then s else
    var url := s.guard.terms.authz[s.taken];
    if !allowed || !Proceeds(s) || url !in s.delivered then s.(closed := true) else
    var a := s.delivered[url];
    if !a.Authorization? || a.status != Valid || a.name !in s.guard.job.names
        || a.name in s.seen then s.(closed := true)
    else s.(taken := s.taken + 1, seen := s.seen + {a.name},
              guard := s.guard.(terms := s.guard.terms.(expires := Earlier(s.guard.terms.expires, a.expires))))
  }

  function Finish(s: Session, allowed: bool, now: Stamp): (Session, seq<Event>) {
    if s.taken < |s.guard.terms.authz| || !s.guard.stage.orderRead || s.guard.stage.authorized then (s, [])
    else if |s.seen| != |s.guard.job.names| || !allowed || !Proceeds(s) || s.guard.terms.expires <= now
        || s.guard.failed then (s.(closed := true), [])
    else (s.(guard := s.guard.(stage := s.guard.stage.(authorized := true))), [Granted])
  }

  function Act(s: Session, a: Action): (Session, seq<Event>) {
    if s.closed then (s, []) else
    match a
    case RoundTrip(t) => var r := Step(s.guard, t); (Keep(s, t.request.url, r), r.log)
    case Take(allowed) => (TakeNext(s, allowed), [])
    case Complete(allowed, now) => Finish(s, allowed, now)
  }

  function Run(start: Guard, actions: seq<Action>): (Session, seq<Event>) {
    if actions == [] then (Begin(start), []) else
    var (s, log) := Run(start, actions[..|actions| - 1]);
    var (next, more) := Act(s, actions[|actions| - 1]);
    (next, log + more)
  }

  // ---- The transport follows the rules ----

  predicate Tracks(start: Guard, g: Guard, v: View) {
    && g.job == start.job && g.terms.expires <= start.terms.expires
    && (!g.failed ==>
          && v.sends == g.wire.requests && v.posted == g.wire.used && v.held == g.wire.nonce
          && v.ordered == v.looked == g.stage.orderRead && v.granted == g.stage.authorized
          && v.finalized == g.stage.finalized && v.processing == g.stage.processing
          && (g.stage.directory <==> v.sends > 0) && (g.stage.authorized ==> g.stage.orderRead))
    && (v.processing ==> g.stage.processing || g.failed)
    && (v.granted ==> g.stage.authorized)
  }

  // The addresses an operation may post to.
  function Places(g: Guard): set<Url> {
    {OrderUrl(g.job.order), FinalizeUrl(g.job.order)} + Set(g.terms.authz)
        + (if g.terms.certificate.Some? then {g.terms.certificate.value} else {})
  }

  predicate Budget(g: Guard) {
    !g.failed ==>
      && g.wire.requests == (if g.stage.directory then 1 else 0) + 2 * |g.wire.used|
          + (if g.wire.nonce != "" then 1 else 0)
      && (!g.stage.directory ==> g.wire.used == {} && g.wire.nonce == "")
      && g.wire.used <= Places(g)
      && (g.stage.finalized ==> g.stage.authorized) && (g.stage.processing ==> g.stage.finalized)
          && (g.terms.certificate.Some? ==> g.terms.certificate.value.CertUrl? && (g.job.refresh || g.stage.finalized))
      && (if g.stage.orderRead then
            |g.terms.authz| == |g.job.names| && (forall u | u in g.terms.authz :: u.AuthzUrl?)
                && Distinct(g.terms.authz)
          else g.wire.used == {} && g.terms.authz == [] && g.terms.certificate.None? && !g.stage.authorized)
  }

  predicate Conforms(start: Guard, g: Guard, log: seq<Event>) {
    Tracks(start, g, Observe(log)) && Budget(g) && Legal(log, RulesOf(start))
  }

  // What admission says about a request that was let through.
  predicate Entitled(g: Guard, kind: Kind, url: Url) {
    && g.stage.directory == (kind != DirectoryRead) && kind != ChallengePost
    && (kind == NonceRead ==> g.wire.nonce == "")
    && (kind !in {DirectoryRead, NonceRead} ==> g.wire.nonce != "" && url !in g.wire.used)
    && (kind == OrderPost ==> !g.stage.orderRead && url == OrderUrl(g.job.order))
    && (kind == AuthorizationPost ==> g.stage.orderRead && !g.stage.authorized && url in g.terms.authz)
    && (kind == FinalizePost ==>
          && g.stage.authorized && g.stage.orderRead && !g.stage.finalized && !g.job.refresh
          && url == FinalizeUrl(g.job.order))
    && (kind == CertificatePost ==>
          && g.stage.authorized && g.stage.orderRead && g.terms.certificate == Some(url)
          && (g.job.refresh || g.stage.finalized))
  }

  lemma AdmittedIsEntitled(start: Guard, g: Guard, v: View, r: Request, kind: Kind)
    requires Tracks(start, g, v) && Budget(g) && !g.failed && Classify(g, r) == Some(kind)
    ensures Entitled(g, kind, r.url)
    ensures kind == DirectoryRead ==> r.url == DirectoryUrl
    ensures kind == NonceRead ==> r.url == NonceUrl
    ensures kind == AuthorizationPost ==> r.url.AuthzUrl?
    ensures kind == CertificatePost ==> r.url.CertUrl?
  {
    hide ValidJws, Distinct, Places;
  }

  lemma SentIsLawful(start: Guard, g: Guard, v: View, r: Request, kind: Kind)
    requires Tracks(start, g, v) && Budget(g)
    requires !g.failed && !g.stage.processing && g.wire.requests < Limit(RulesOf(g)) && Classify(g, r) == Some(kind)
    ensures Lawful(v, Sent(kind, r.url, g.wire.nonce, r.body), RulesOf(start)) && Entitled(g, kind, r.url)
  {
    hide Classify, Budget;
    AdmittedIsEntitled(start, g, v, r, kind);
    AdmittedIsSigned(g, r, kind);
  }

  lemma TailIsLawful(log: seq<Event>, kind: Kind, tail: seq<Event>, rules: Rules)
    requires Legal(log, rules) && Tail(kind, tail) && rules.Finalizing?
    requires var v := Observe(log);
             && !v.processing && (kind == NonceRead ==> v.asked && v.held == "")
             && (kind == OrderPost ==> v.ordered && !v.looked) && (kind == FinalizePost ==> v.finalized)
    ensures Legal(log + tail, rules)
    ensures |tail| <= 2 && Observe(log + tail) == WatchTail(Observe(log), tail)
  {
    hide Legal, Observe;
    if tail == [] {
      assert log + tail == log;
    } else {
      Extend(log, tail[0], rules);
      if |tail| == 2 {
        Extend(log + [tail[0]], tail[1], rules);
        assert log + tail == (log + [tail[0]]) + [tail[1]];
      } else {
        assert log + tail == log + [tail[0]];
      }
    }
  }

  lemma TracksSent(start: Guard, g: Guard, v: View, kind: Kind, q: Request, r: Result)
    requires Tracks(start, g, v) && !g.failed && !g.stage.processing && Sending(g, kind, q, r)
              && Entitled(g, kind, q.url)
    requires r.guard.job == g.job && r.guard.terms.expires <= g.terms.expires
    ensures var sent := Watch(v, Sent(kind, q.url, g.wire.nonce, q.body));
            && |r.log| <= 3 && Tracks(start, r.guard, WatchTail(sent, r.log[1..]))
            && !sent.processing && (kind == NonceRead ==> sent.asked && sent.held == "")
            && (kind == OrderPost ==> sent.ordered && !sent.looked) && (kind == FinalizePost ==> sent.finalized)
  {
    hide Distinct;
  }

  lemma BudgetHolds(g: Guard, kind: Kind, q: Request, r: Result)
    requires Budget(g) && !g.failed && Sending(g, kind, q, r) && Entitled(g, kind, q.url)
    requires r.guard.job == g.job
    ensures Budget(r.guard)
  {
    hide Distinct;
  }

  lemma StepFrames(g: Guard, t: Turn)
    ensures var r := Step(g, t);
            && r.guard.stage.authorized == g.stage.authorized && r.guard.job == g.job
                && r.guard.terms.expires <= g.terms.expires
            && (g.stage.orderRead ==> r.guard.stage.orderRead && r.guard.terms.authz == g.terms.authz)
            && (r.guard.stage.orderRead || r.guard.terms.authz == g.terms.authz)
            && (!r.guard.failed ==> !g.failed && g.wire.used <= r.guard.wire.used)
            && (r.delivered.Some? ==> !r.guard.failed)
            && (r.delivered.Some? && r.delivered.value.Authorization? ==>
                  t.request.url !in g.wire.used && t.request.url in r.guard.wire.used)
  {
    hide Step, Classify, Sending, CertificateTransport.Accepted;
    StepShape(g, t);
    var r := Step(g, t);
    if r.log != [] {
      var kind := Classify(g, t.request).value;
      PostsAreUnused(g, t.request, kind);
      SentFrames(g, kind, t.request, r);
    }
  }

  lemma PostsAreUnused(g: Guard, request: Request, kind: Kind)
    requires Classify(g, request) == Some(kind)
    ensures kind !in {DirectoryRead, NonceRead} ==> request.url !in g.wire.used
    ensures kind == OrderPost ==> !g.stage.orderRead
  {
    hide ValidJws;
  }

  lemma AcceptedFrames(sent: Guard, kind: Kind, tail: seq<Event>, r: Guard)
    requires CertificateTransport.Accepted(sent, kind, tail, r) && (kind == OrderPost ==> !sent.stage.orderRead)
    ensures r.stage.authorized == sent.stage.authorized && r.wire.used == sent.wire.used && !r.failed
    ensures sent.stage.orderRead ==> r.stage.orderRead && r.terms.authz == sent.terms.authz
    ensures r.stage.orderRead || r.terms.authz == sent.terms.authz
  {
    hide Distinct;
  }

  lemma SentFrames(g: Guard, kind: Kind, q: Request, r: Result)
    requires Sending(g, kind, q, r) && !g.failed && (kind == OrderPost ==> !g.stage.orderRead)
    ensures r.guard.job == g.job && r.guard.terms.expires <= g.terms.expires
    ensures r.guard.stage.authorized == g.stage.authorized
    ensures g.stage.orderRead ==> r.guard.stage.orderRead && r.guard.terms.authz == g.terms.authz
    ensures r.guard.stage.orderRead || r.guard.terms.authz == g.terms.authz
    ensures g.wire.used <= r.guard.wire.used
    ensures r.delivered.Some? ==> !r.guard.failed
    ensures r.delivered.Some? && r.delivered.value.Authorization? ==>
              kind !in {DirectoryRead, NonceRead} && q.url in r.guard.wire.used
  {
    hide Tail, CertificateTransport.Accepted;
    if !r.guard.failed { AcceptedFrames(Outgoing(g, kind, q.url), kind, r.log[1..], r.guard); }
  }

  lemma SentConforms(start: Guard, g: Guard, log: seq<Event>, r: Result, request: Request, kind: Kind)
    requires Conforms(start, g, log) && Sending(g, kind, request, r)
    requires !g.failed && !g.stage.processing && g.wire.requests < Limit(RulesOf(g))
              && Classify(g, request) == Some(kind)
    requires r.guard.job == g.job && r.guard.terms.expires <= g.terms.expires
    ensures Conforms(start, r.guard, log + r.log)
  {
    hide Legal, Classify, Tail, Observe, Lawful, Budget, Tracks, CertificateTransport.Accepted, Entitled;
    var v, e := Observe(log), Sent(kind, request.url, g.wire.nonce, request.body);
    SentIsLawful(start, g, v, request, kind);
    Extend(log, e, RulesOf(start));
    TracksSent(start, g, v, kind, request, r);
    TailIsLawful(log + [e], kind, r.log[1..], RulesOf(start));
    assert (log + [e]) + r.log[1..] == log + r.log;
    BudgetHolds(g, kind, request, r);
  }

  lemma TurnConforms(start: Guard, g: Guard, log: seq<Event>, t: Turn)
    requires Conforms(start, g, log)
    ensures Conforms(start, Step(g, t).guard, log + Step(g, t).log)
  {
    hide Legal, Step, Classify, Observe, Budget, Sending;
    StepShape(g, t);
    StepFrames(g, t);
    var r := Step(g, t);
    if r.log == [] {
      assert log + r.log == log;
      FailedFits(r.guard);
    } else {
      hide Conforms;
      SentConforms(start, g, log, r, t.request, Classify(g, t.request).value);
    }
  }

  lemma FailedFits(g: Guard)
    requires g.failed
    ensures Budget(g)
  {
  }

  // ---- The client's loop ----

  // The name whose authorization the i-th answer showed to be valid.
  function NameAt(s: Session, i: nat): Option<string> {
    if i >= |s.guard.terms.authz| || s.guard.terms.authz[i] !in s.delivered then None else
    var a := s.delivered[s.guard.terms.authz[i]];
    if a.Authorization? && a.status == Valid then Some(a.name) else None
  }

  predicate ExpiresAfter(s: Session, i: nat) {
    && i < |s.guard.terms.authz| && s.guard.terms.authz[i] in s.delivered
        && s.delivered[s.guard.terms.authz[i]].Authorization?
    && s.delivered[s.guard.terms.authz[i]].expires >= s.guard.terms.expires
  }

  predicate LoopingNames(s: Session) {
    && |s.seen| == s.taken
    && (forall name | name in s.seen ::
          name in s.guard.job.names && exists i | 0 <= i < s.taken :: NameAt(s, i) == Some(name))
    && (forall i | 0 <= i < s.taken :: NameAt(s, i).Some? && NameAt(s, i).value in s.seen)
    && (forall i, j | 0 <= i < j < s.taken :: NameAt(s, i) != NameAt(s, j))
  }

  predicate Looping(s: Session) {
    && LoopingNames(s)
    && (forall i | 0 <= i < s.taken :: ExpiresAfter(s, i))
    && s.taken <= |s.guard.terms.authz|
    && (!s.guard.stage.orderRead ==> s.guard.terms.authz == [])
    && (!s.guard.failed ==> s.delivered.Keys <= s.guard.wire.used)
    && (s.guard.stage.authorized ==>
          s.guard.stage.orderRead && s.taken == |s.guard.terms.authz| && |s.seen| == |s.guard.job.names|)
  }

  lemma SameNamesKeepLooping(s: Session, s': Session)
    requires LoopingNames(s) && s'.taken == s.taken && s'.seen == s.seen && s'.guard.job == s.guard.job
    requires forall i | 0 <= i < s.taken :: NameAt(s', i) == NameAt(s, i)
    ensures LoopingNames(s')
  {
    hide NameAt;
    forall name | name in s'.seen ensures exists i | 0 <= i < s'.taken :: NameAt(s', i) == Some(name) {
      var i :| 0 <= i < s.taken && NameAt(s, i) == Some(name);
      assert NameAt(s', i) == Some(name);
    }
  }

  lemma TurnKeepsSeen(s: Session, t: Turn, i: nat)
    requires Looping(s) && i < s.taken
    ensures var s' := Keep(s, t.request.url, Step(s.guard, t)); NameAt(s', i) == NameAt(s, i) && ExpiresAfter(s', i)
  {
    hide Step, LoopingNames;
    assert ExpiresAfter(s, i);
    StepFrames(s.guard, t);
  }

  lemma TurnKeepsLooping(s: Session, t: Turn)
    requires Looping(s)
    ensures Looping(Keep(s, t.request.url, Step(s.guard, t)))
  {
    hide Step, NameAt, ExpiresAfter, LoopingNames;
    StepFrames(s.guard, t);
    var s' := Keep(s, t.request.url, Step(s.guard, t));
    forall i | 0 <= i < s.taken ensures NameAt(s', i) == NameAt(s, i) && ExpiresAfter(s', i) {
      TurnKeepsSeen(s, t, i);
    }
    SameNamesKeepLooping(s, s');
  }

  lemma TakeKeepsLooping(s: Session, allowed: bool)
    requires Looping(s) && !s.guard.stage.authorized
    ensures Looping(TakeNext(s, allowed))
  {
    hide NameAt, LoopingNames, Proceeds;
    var s' := TakeNext(s, allowed);
    forall i | 0 <= i < s.taken ensures NameAt(s', i) == NameAt(s, i) && ExpiresAfter(s', i) {
      assert ExpiresAfter(s, i);
      SameAnswers(s, s', i);
    }
    if s'.taken == s.taken {
      SameNamesKeepLooping(s, s');
    } else {
      SameAnswers(s, s', s.taken);
      NextName(s, s', s.delivered[s.guard.terms.authz[s.taken]].name);
    }
  }

  lemma SameAnswers(s: Session, s': Session, i: nat)
    requires s'.delivered == s.delivered && s'.guard.terms.authz == s.guard.terms.authz
    ensures NameAt(s', i) == NameAt(s, i)
    ensures i < |s.guard.terms.authz| && s.guard.terms.authz[i] in s.delivered ==>
              var a := s.delivered[s.guard.terms.authz[i]];
              a.Authorization? && a.status == Valid ==> NameAt(s, i) == Some(a.name)
  {
  }

  lemma NextName(s: Session, s': Session, name: string)
    requires LoopingNames(s) && name !in s.seen && name in s.guard.job.names
    requires s'.taken == s.taken + 1 && s'.seen == s.seen + {name} && s'.guard.job == s.guard.job
    requires forall i | 0 <= i < s.taken :: NameAt(s', i) == NameAt(s, i)
    requires NameAt(s', s.taken) == Some(name)
    ensures LoopingNames(s')
  {
    hide NameAt;
    forall n | n in s'.seen ensures exists i | 0 <= i < s'.taken :: NameAt(s', i) == Some(n) {
      if n in s.seen {
        var i :| 0 <= i < s.taken && NameAt(s, i) == Some(n);
        assert NameAt(s', i) == Some(n);
      }
    }
  }

  lemma SameGuardKeepsLooping(s: Session, s': Session)
    requires Looping(s) && s'.taken == s.taken && s'.seen == s.seen && s'.delivered == s.delivered
    requires s'.guard.job == s.guard.job && s'.guard.terms == s.guard.terms && s'.guard.wire == s.guard.wire
    requires s'.guard.failed == s.guard.failed && s'.guard.stage.orderRead == s.guard.stage.orderRead
    requires s'.guard.stage.authorized ==>
               s.guard.stage.orderRead && s.taken == |s.guard.terms.authz| && |s.seen| == |s.guard.job.names|
    ensures Looping(s')
  {
    hide NameAt, LoopingNames;
    forall i | 0 <= i < s.taken ensures NameAt(s', i) == NameAt(s, i) && ExpiresAfter(s', i) {
      assert ExpiresAfter(s, i);
      SameAnswers(s, s', i);
    }
    SameNamesKeepLooping(s, s');
  }

  lemma ActKeepsLooping(s: Session, a: Action)
    requires Looping(s)
    ensures Looping(Act(s, a).0)
  {
    hide Looping, Step, Keep, TakeNext, Proceeds;
    if !s.closed {
      match a
      case RoundTrip(t) => TurnKeepsLooping(s, t);
      case Take(allowed) =>
        if s.guard.stage.authorized { NothingLeftToTake(s, allowed); } else { TakeKeepsLooping(s, allowed); }
      case Complete(allowed, now) => FinishKeepsLooping(s, allowed, now);
    }
  }

  lemma NothingLeftToTake(s: Session, allowed: bool)
    requires Looping(s) && s.guard.stage.authorized
    ensures TakeNext(s, allowed) == s
  {
  }

  lemma FinishKeepsLooping(s: Session, allowed: bool, now: Stamp)
    requires Looping(s)
    ensures Looping(Finish(s, allowed, now).0)
  {
    SameGuardKeepsLooping(s, Finish(s, allowed, now).0);
  }

  lemma TakeConforms(start: Guard, s: Session, log: seq<Event>, allowed: bool)
    requires Conforms(start, s.guard, log)
    ensures Conforms(start, TakeNext(s, allowed).guard, log)
  {
    hide Legal, Proceeds, Observe, Distinct;
  }

  lemma FinishConforms(start: Guard, s: Session, log: seq<Event>, allowed: bool, now: Stamp)
    requires Conforms(start, s.guard, log)
    ensures Conforms(start, Finish(s, allowed, now).0.guard, log + Finish(s, allowed, now).1)
  {
    hide Legal, Proceeds, Observe, Distinct;
    if Finish(s, allowed, now).1 == [] {
      assert log + [] == log;
    } else {
      Extend(log, Granted, RulesOf(start));
    }
  }

  lemma ActConforms(start: Guard, s: Session, log: seq<Event>, a: Action)
    requires Conforms(start, s.guard, log)
    ensures Conforms(start, Act(s, a).0.guard, log + Act(s, a).1)
  {
    hide Conforms, Step, TakeNext, Finish;
    assert log + [] == log;
    if !s.closed {
      match a
      case RoundTrip(t) => TurnConforms(start, s.guard, log, t);
      case Take(allowed) => TakeConforms(start, s, log, allowed);
      case Complete(allowed, now) => FinishConforms(start, s, log, allowed, now);
    }
  }

  predicate Sound(start: Guard, s: Session, log: seq<Event>) {
    Conforms(start, s.guard, log) && Looping(s)
  }

  lemma {:induction false} EveryOperationIsSound(job: Job, expires: Stamp, actions: seq<Action>)
    ensures Sound(Fresh(job, expires), Run(Fresh(job, expires), actions).0, Run(Fresh(job, expires), actions).1)
  {
    hide Conforms, Looping, Act;
    if actions == [] {
      StartIsSound(Fresh(job, expires));
    } else {
      EveryOperationIsSound(job, expires, actions[..|actions| - 1]);
      var (s, log) := Run(Fresh(job, expires), actions[..|actions| - 1]);
      ActConforms(Fresh(job, expires), s, log, actions[|actions| - 1]);
      ActKeepsLooping(s, actions[|actions| - 1]);
    }
  }

  lemma StartIsSound(start: Guard)
    requires start == Fresh(start.job, start.terms.expires)
    ensures Sound(start, Begin(start), [])
  {
    assert Observe([]) == NOTHING;
  }

  // ---- The certificate in hand ----

  // A chain in hand was fetched, is a good one, and its request and answer are in the log.
  predicate ChainShown(s: Session, log: seq<Event>) {
    && (s.guard.stage.fetched <==> s.chain != [])
    && (s.chain != [] ==>
          && GoodChain(s.chain) && Opened(CertificatePost) in log
          && exists k | 0 <= k < |log| :: SentAs(log[k], CertificatePost))
  }

  lemma ActShowsChain(s: Session, log: seq<Event>, a: Action)
    requires ChainShown(s, log)
    ensures ChainShown(Act(s, a).0, log + Act(s, a).1)
  {
    hide Step, Distinct, Proceeds;
    var (next, more) := Act(s, a);
    assert forall k | 0 <= k < |log| :: (log + more)[k] == log[k];
    assert forall k | 0 <= k < |more| :: (log + more)[|log| + k] == more[k];
    if a.RoundTrip? && !s.closed {
      FetchShape(s.guard, a.turn);
      assert |more| == 2 && SentAs(more[0], CertificatePost) ==> SentAs((log + more)[|log|], CertificatePost);
      assert |more| == 2 ==> (log + more)[|log| + 1] == more[1];
    }
  }

  /** Whoever fetched a certificate had been given authority for it. */
  lemma FetchedWithAuthority(start: Guard, s: Session, log: seq<Event>)
    requires Sound(start, s, log) && ChainShown(s, log) && s.chain != []
    ensures Granted in log
  {
    hide Tracks, Budget, Legal, Observe, FreshlyFetched, Looping, GoodChain;
    var k :| 0 <= k < |log| && SentAs(log[k], CertificatePost);
    PromisesAreKept(log, RulesOf(start), k);
  }

  // ---- What no operation can do ----

  /** Exactly one authorization of the order was seen valid for this name. */
  predicate SeenOnce(s: Session, name: string) {
    exists i | 0 <= i < |s.guard.terms.authz| ::
      NameAt(s, i) == Some(name) && forall j | 0 <= j < |s.guard.terms.authz| :: NameAt(s, j) == Some(name) ==> j == i
  }

  function Names(names: seq<string>): set<string> { set n | n in names }

  lemma {:induction false} NamesAreAsMany(names: seq<string>)
    requires Distinct(names)
    ensures |Names(names)| == |names|
  {
    if names != [] {
      NamesAreAsMany(names[1..]);
      assert Names(names) == {names[0]} + Names(names[1..]);
    }
  }

  lemma Pigeonhole(seen: set<string>, names: seq<string>)
    requires Distinct(names) && |seen| == |names| && forall n | n in seen :: n in names
    ensures forall n | n in names :: n in seen
  {
    NamesAreAsMany(names);
    assert seen <= Names(names);
    assert Names(names) == seen + (Names(names) - seen);
  }

  lemma AuthorizedSawEveryName(s: Session, name: string)
    requires Looping(s) && s.guard.stage.authorized && Distinct(s.guard.job.names) && name in s.guard.job.names
    ensures SeenOnce(s, name)
  {
    hide NameAt, ExpiresAfter, Distinct;
    Pigeonhole(s.seen, s.guard.job.names);
    var i :| 0 <= i < s.taken && NameAt(s, i) == Some(name);
    assert forall j | 0 <= j < |s.guard.terms.authz| :: NameAt(s, j) == Some(name) ==> j == i;
  }

  lemma GrantedMeansAuthorized(start: Guard, s: Session, log: seq<Event>)
    requires Conforms(start, s.guard, log) && Granted in log
    ensures Observe(log).granted
  {
    hide Tracks, Budget;
    var k :| 0 <= k < |log| && log[k] == Granted;
    GrantIsRemembered(log, RulesOf(start), k);
  }

  lemma {:induction false} GrantIsRemembered(log: seq<Event>, rules: Rules, k: nat)
    requires Legal(log, rules) && k < |log| && log[k] == Granted
    ensures Observe(log).granted
  {
    hide Watch, Lawful;
    var last := |log| - 1;
    WatchRemembers(Observe(log[..last]), log[last], rules);
    if k < last {
      GrantIsRemembered(log[..last], rules, k);
    } else {
      GrantGrants(Observe(log[..last]));
    }
  }

  lemma GrantGrants(v: View)
    ensures Watch(v, Granted).granted
  {
  }

  /** For any server, any round trips and any interruption, an operation sends at most 23 requests,
      posts to no address twice, spends each nonce on one post, finalizes at most once and never on a
      refresh, sends nothing after a processing answer, and holds finalize authority only if every
      requested name was seen valid in exactly one authorization; its deadline only comes closer. */
  lemma OperationsAreSafe(job: Job, expires: Stamp, actions: seq<Action>)
    requires Distinct(job.names)
    ensures var (s, log) := Run(Fresh(job, expires), actions);
            && Sends(log) <= 23
            && (forall k | 0 <= k < |log| :: KeepsItsPromise(log, RulesOf(Fresh(job, expires)), k))
            && (Granted in log ==> forall name | name in job.names :: SeenOnce(s, name))
            && s.guard.terms.expires <= expires
            && (forall i | 0 <= i < s.taken :: ExpiresAfter(s, i))
  {
    hide Run, Budget, Legal, Observe, LoopingNames, Distinct;
    var start := Fresh(job, expires);
    var (s, log) := Run(start, actions);
    EveryOperationIsSound(job, expires, actions);
    Happened(log, RulesOf(start));
    forall k | 0 <= k < |log| ensures KeepsItsPromise(log, RulesOf(start), k) {
      PromisesAreKept(log, RulesOf(start), k);
    }
    if Granted in log {
      GrantedMeansAuthorized(start, s, log);
      forall name | name in job.names ensures SeenOnce(s, name) {
        AuthorizedSawEveryName(s, name);
      }
    }
  }

  /** The client gives authority if and only if it has not yet, its loop is through every authorization of the
      order it read, it saw as many names as were requested, the order is ready, or on a refresh valid, the
      deadline is ahead and it is still permitted; in the loop it goes on only past an authorization that
      was delivered for a requested name not yet seen, and valid. */
  lemma AuthorityIsGivenExactly(s: Session, allowed: bool, now: Stamp)
    ensures Finish(s, allowed, now).1 == [Granted] <==>
              && s.taken >= |s.guard.terms.authz| && s.guard.stage.orderRead && !s.guard.stage.authorized
              && |s.seen| == |s.guard.job.names| && allowed && !s.guard.failed && now < s.guard.terms.expires
              && s.status.Some? && s.status.value == (if s.guard.job.refresh then Valid else Ready)
    ensures Finish(s, allowed, now).1 == [Granted] || Finish(s, allowed, now).1 == []
    ensures Finish(s, allowed, now).0.guard.stage.authorized <==>
              s.guard.stage.authorized || Finish(s, allowed, now).1 == [Granted]
    ensures TakeNext(s, allowed).taken > s.taken <==>
              && s.taken < |s.guard.terms.authz| && allowed && s.guard.terms.authz[s.taken] in s.delivered
              && s.status.Some? && s.status.value == (if s.guard.job.refresh then Valid else Ready)
              && var a := s.delivered[s.guard.terms.authz[s.taken]];
                 a.Authorization? && a.status == Valid && a.name in s.guard.job.names && a.name !in s.seen
  {
  }

  /** The first refusal is the last word. */
  lemma {:induction false} SilenceAfterRefusal(start: Guard, actions: seq<Action>, more: seq<Action>)
    requires Run(start, actions).0.guard.failed
    ensures Run(start, actions + more).0.guard.failed && Run(start, actions + more).1 == Run(start, actions).1
  {
    hide Proceeds, Send;
    if more == [] {
      assert actions + more == actions;
    } else {
      SilenceAfterRefusal(start, actions, more[..|more| - 1]);
      assert (actions + more)[..|actions + more| - 1] == actions + more[..|more| - 1];
    }
  }

  /** With at most eight names, a well-formed request is never refused for the limit: not a post, and
      not a nonce fetch while some address is still open. A whole operation costs one directory read
      and a nonce and a post for the order, each authorization, finalize and the certificate: 7 + 2n. */
  lemma LimitNeverStopsAnHonestClient(job: Job, expires: Stamp, actions: seq<Action>, r: Request)
    requires |job.names| <= 8
    requires var g := Run(Fresh(job, expires), actions).0.guard;
             !g.failed && Classify(g, r).Some? && (r.verb == Head ==> g.wire.used != Places(g))
    ensures var g := Run(Fresh(job, expires), actions).0.guard;
            && g.wire.requests < Limit(RulesOf(g))
            && g.wire.requests == (if g.stage.directory then 1 else 0) + 2 * |g.wire.used|
                + (if g.wire.nonce != "" then 1 else 0)
            && |g.wire.used| <= 3 + |job.names|
  {
    hide Run, Legal, Observe, ValidJws, Distinct, Looping;
    var g := Run(Fresh(job, expires), actions).0.guard;
    EveryOperationIsSound(job, expires, actions);
    SetIsSmall(g.terms.authz);
    SubsetIsSmaller(g.wire.used, Places(g));
  }
}
