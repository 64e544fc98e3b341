/**
 The guarded transport of finalization and certificate retrieval
 (certificateTransport in internal/acmestaging/certificate.go).

 The source keeps the authorization addresses sorted; here they keep the order they were listed in,
 which nothing depends on.
 */
module CertificateTransport {
  import opened Common
  import opened AcmeWire
  import opened Conversation

  // order: the saved order's identifier; csr: the request saved for it.
  datatype Job = Job(account: string, order: string, names: seq<string>, csr: string, refresh: bool)

  // What has been spent: the nonce in hand, the requests sent, the addresses posted to.
  datatype Wire = Wire(nonce: string, requests: nat, used: set<Url>)

  // What the server has said: the earliest deadline, the certificate's address, the authorizations.
  datatype Terms = Terms(expires: Stamp, certificate: Option<Url>, authz: seq<Url>)

  datatype Stage = Stage(
    directory: bool, orderRead: bool, authorized: bool, finalized: bool, processing: bool, fetched: bool)

  datatype Guard = Guard(job: Job, wire: Wire, terms: Terms, stage: Stage, failed: bool)

  // Everything outside the transport during one round trip.
  datatype Turn = Turn(
    request: Request, entry: bool, enteredAt: Stamp, send: bool, received: bool, read: bool, readAt: Stamp,
    answer: Option<Answer>)

  datatype Result = Result(guard: Guard, log: seq<Event>, delivered: Option<Content>)

  function Fresh(job: Job, expires: Stamp): Guard {
    Guard(job, Wire("", 0, {}), Terms(expires, None, []), Stage(false, false, false, false, false, false), false)
  }

  function RulesOf(g: Guard): Rules {
    Finalizing(g.job.account, OrderUrl(g.job.order), FinalizeUrl(g.job.order), g.job.csr, g.job.refresh)
  }

  function Earlier(a: Stamp, b: Stamp): Stamp { if b < a then b else a }

  // ---- Admission ----

  predicate ValidJws(g: Guard, r: Request, finalize: bool) {
    && r.body.Signed? && r.body.kid == g.job.account && r.body.nonce == g.wire.nonce && r.body.url == r.url
    && r.body.payload == if finalize then Csr(g.job.csr) else Empty
  }

  function PostKind(g: Guard, url: Url): Option<Kind> {
    if url == OrderUrl(g.job.order) && !g.stage.orderRead then Some(OrderPost)
    else if g.stage.orderRead && !g.stage.authorized && url in g.terms.authz then Some(AuthorizationPost)
    else if !g.job.refresh && g.stage.authorized && !g.stage.finalized
        && url == FinalizeUrl(g.job.order) then Some(FinalizePost)
    else if g.stage.authorized && g.terms.certificate == Some(url)
        && (g.job.refresh || g.stage.finalized) then Some(CertificatePost)
    else None
  }

  function Classify(g: Guard, r: Request): Option<Kind> {
    match r.verb
    case Get => if r.url == DirectoryUrl && r.body == NoBody && !g.stage.directory then Some(DirectoryRead) else None
    case Head => if r.url == NonceUrl && r.body == NoBody && g.stage.directory
        && g.wire.nonce == "" then Some(NonceRead) else None
    case Post =>
      if !g.stage.directory || g.wire.nonce == "" || r.url in g.wire.used then None else
      var kind := PostKind(g, r.url);
      if kind.None? || !ValidJws(g, r, kind.value == FinalizePost) then None else kind
    case OtherVerb => None
  }

  function Spend(g: Guard, kind: Kind, url: Url): Guard {
    if kind == DirectoryRead then g.(stage := g.stage.(directory := true))
    else if kind == NonceRead then g
    else g.(wire := g.wire.(used := g.wire.used + {url}, nonce := ""))
  }

  // ---- Answers ----

  predicate FitsHeaders(g: Guard, kind: Kind, a: Answer) {
    && a.status == 200 && |a.locations| <= 1
    && (forall u | u in a.locations :: kind in {OrderPost, FinalizePost} && u == OrderUrl(g.job.order))
    && a.typed && a.sized
  }

  predicate ReadsOrder(g: Guard, w: Content, finalized: bool, now: Stamp) {
    && w.Order? && LiveAt(w.expires, now) && w.finalize == FinalizeUrl(g.job.order)
    && SameScope(w, g.job.names)
    && (if finalized then w.status in {Processing, Valid} && multiset(w.authorizations) == multiset(g.terms.authz)
        else if !g.job.refresh then w.status == Ready
        else w.status in {Pending, Ready, Processing, Valid, Invalid})
    && (w.error ==> w.status == Invalid)
    && (if w.status == Valid then w.certificate.Some? && w.certificate.value.CertUrl? else w.certificate.None?)
  }

  function ReadContent(g: Guard, kind: Kind, w: Content, now: Stamp): Option<Content> {
    match kind
    case DirectoryRead => if w.Directory? then Some(w) else None
    case OrderPost => if ReadsOrder(g, w, false, now) then Some(w) else None
    case FinalizePost => if ReadsOrder(g, w, true, now) then Some(w) else None
    case AuthorizationPost => ReadAuthorization(w, g.job.names, now)
    case CertificatePost => if w.Chain? && 1 <= |w.der| <= 5 && Distinct(w.der) then Some(w) else None
    case NonceRead | ChallengePost => None
  }

  function Deliver(g: Guard, kind: Kind, w: Content): Guard {
    if kind == OrderPost && w.Order? then
      g.(stage := g.stage.(orderRead := true),
         terms := Terms(Earlier(g.terms.expires, w.expires), w.certificate, w.authorizations))
    else if kind == FinalizePost && w.Order? then
      g.(stage := g.stage.(finalized := true, processing := w.status == Processing),
         terms := Terms(Earlier(g.terms.expires, w.expires), w.certificate, g.terms.authz))
    else if kind == CertificatePost then g.(stage := g.stage.(fetched := true))
    else g
  }

  function Refuse(g: Guard, log: seq<Event>): Result { Result(g.(failed := true), log, None) }

  function Look(kind: Kind, w: Option<Content>): seq<Event> {
    if kind == FinalizePost && w.Some? && w.value.Order? && w.value.status == Processing
    then [Opened(kind), Processed] else [Opened(kind)]
  }

  // From the moment an answer arrives; the log is what follows the request.
  function Receive(g: Guard, kind: Kind, t: Turn, a: Answer): Result {
    if !a.identity then Refuse(g, [])
    else if kind == NonceRead then
      if a.status in {200, 204} && |a.nonces| == 1 && ValidToken(a.nonces[0])
      then Result(g.(wire := g.wire.(nonce := a.nonces[0])), [Fetched(a.nonces[0])], Some(Garbage))
      else Refuse(g, [])
    else if !FitsHeaders(g, kind, a) then Refuse(g, [])
    else
      var w := if t.read then ReadContent(g, kind, a.content, t.readAt) else None;
      if w.None? then Refuse(g, [Opened(kind)]) else Result(Deliver(g, kind, w.value), Look(kind, w), w)
  }

  // The state in which an admitted request goes out.
  function Outgoing(g: Guard, kind: Kind, url: Url): Guard {
    var spent := Spend(g, kind, url);
    spent.(wire := spent.wire.(requests := spent.wire.requests + 1))
  }

  function Send(g: Guard, kind: Kind, t: Turn): Result {
    if !t.send then Refuse(Spend(g, kind, t.request.url), []) else
    var sent, log := Outgoing(g, kind, t.request.url), [Sent(kind, t.request.url, g.wire.nonce, t.request.body)];
    if t.answer.None? || !t.received then Refuse(sent, log) else
    var r := Receive(sent, kind, t, t.answer.value);
    r.(log := log + r.log)
  }

  /** One round trip. */
  function Step(g: Guard, t: Turn): Result {
    if g.failed || g.stage.processing || !t.entry || g.terms.expires <= t.enteredAt
        || g.wire.requests >= Limit(RulesOf(g)) || !t.request.plain
    then Refuse(g, []) else
    var kind := Classify(g, t.request);
    if kind.None? then Refuse(g, []) else Send(g, kind.value, t)
  }

  // What a request that leaves the process carries: a read nothing; a post the account's signature over its
  // own address and the nonce it spends, and only finalize anything more, which is the saved request.
  predicate Carries(g: Guard, e: Event) {
    && e.Sent? && e.nonce == g.wire.nonce
    && if e.kind == DirectoryRead || e.kind == NonceRead then e.body == NoBody
       else e.body == Signed(g.job.account, g.wire.nonce, e.url,
                             if e.kind == FinalizePost then Csr(g.job.csr) else Empty)
  }

  lemma AdmittedIsSigned(g: Guard, r: Request, kind: Kind)
    requires Classify(g, r) == Some(kind)
    ensures Carries(g, Sent(kind, r.url, g.wire.nonce, r.body))
  {
  }

  class Transport {
    const job: Job
    var expires: Stamp
    var nonce: string
    var certificate: Option<Url>
    var authz: seq<Url>
    var directory: bool
    var orderRead: bool
    var authorized: bool
    var finalized: bool
    var processing: bool
    var fetched: bool
    var failed: bool
    var requests: nat
    var used: set<Url>
    ghost var log: seq<Event>

    function State(): Guard
      reads this
    {
      Guard(job, Wire(nonce, requests, used), Terms(expires, certificate, authz),
            Stage(directory, orderRead, authorized, finalized, processing, fetched), failed)
    }

    constructor (job: Job, expires: Stamp)
      ensures State() == Fresh(job, expires) && log == []
    {
      this.job := job;
      this.expires, nonce, certificate, authz := expires, "", None, [];
      directory, orderRead, authorized, finalized, processing := false, false, false, false, false;
      fetched, failed, requests, used, log := false, false, 0, {}, [];
    }

    /** Whatever the client asks and the server answers: exactly one Step, and what it sends, if anything,
        carries what it should. */
    method RoundTrip(t: Turn) returns (delivered: Option<Content>)
      modifies this
      ensures var r := Step(old(State()), t); State() == r.guard && log == old(log) + r.log && delivered == r.delivered
      ensures log == old(log) || (|log| > |old(log)| && Carries(old(State()), log[|old(log)|]))
    {
      StepShape(State(), t);
      hide Send, Classify;
      delivered := None;
      if failed || processing || !t.entry || expires <= t.enteredAt || requests >= Limit(RulesOf(State()))
          || !t.request.plain {
        failed := true;
        return;
      }
      var kind := Classify(State(), t.request);
      if kind.None? {
        failed := true;
        return;
      }
      delivered := Dispatch(kind.value, t);
    }

    // What admitting a request uses up.
    method Use(kind: Kind, url: Url)
      modifies this
      ensures State() == Spend(old(State()), kind, url) && log == old(log)
    {
      if kind == DirectoryRead {
        directory := true;
      } else if kind != NonceRead {
        used, nonce := used + {url}, "";
      }
    }

    method Dispatch(kind: Kind, t: Turn) returns (delivered: Option<Content>)
      modifies this
      ensures var r := Send(old(State()), kind, t);
              State() == r.guard && log == old(log) + r.log && delivered == r.delivered
    {
      hide Receive, Spend;
      delivered := None;
      ghost var e := Sent(kind, t.request.url, nonce, t.request.body);
      Use(kind, t.request.url);
      if !t.send {
        failed := true;
        return;
      }
      requests := requests + 1;
      log := log + [e];
      ghost var sent := State();
      assert sent == Outgoing(old(State()), kind, t.request.url);
      if t.answer.None? || !t.received {
        failed := true;
        return;
      }
      hide Outgoing;
      delivered := Answered(kind, t, t.answer.value);
      ghost var r := Receive(sent, kind, t, t.answer.value);
      assert log == old(log) + ([e] + r.log);
      assert Send(old(State()), kind, t) == r.(log := [e] + r.log);
    }

    method Answered(kind: Kind, t: Turn, a: Answer) returns (delivered: Option<Content>)
      modifies this
      ensures var r := Receive(old(State()), kind, t, a);
              State() == r.guard && log == old(log) + r.log && delivered == r.delivered
    {
      hide ReadContent, ValidToken, FitsHeaders, Deliver;
      delivered := None;
      if !a.identity || (kind != NonceRead && !FitsHeaders(State(), kind, a)) {
        failed := true;
        return;
      }
      if kind == NonceRead {
        if a.status !in {200, 204} || |a.nonces| != 1 || !ValidToken(a.nonces[0]) {
          failed := true;
          return;
        }
        nonce, log := a.nonces[0], log + [Fetched(a.nonces[0])];
        return Some(Garbage);
      }
      var w := if t.read then ReadContent(State(), kind, a.content, t.readAt) else None;
      log := log + if w.None? then [Opened(kind)] else Look(kind, w);
      if w.None? {
        failed := true;
        return;
      }
      Accept(kind, w.value);
      delivered := w;
    }

    // What an accepted answer changes: the deadline can only come closer.
    method Accept(kind: Kind, w: Content)
      modifies this
      ensures State() == Deliver(old(State()), kind, w) && log == old(log)
    {
      hide Earlier;
      if kind == OrderPost && w.Order? {
        authz, certificate, orderRead, expires := w.authorizations, w.certificate, true, Earlier(expires, w.expires);
      } else if kind == FinalizePost && w.Order? {
        certificate, finalized, processing, expires := w.certificate, true, w.status == Processing,
            Earlier(expires, w.expires);
      } else if kind == CertificatePost {
        fetched := true;
      }
    }
  }

  // ---- What one round trip can do ----

  // What follows a request in the log.
  predicate Tail(kind: Kind, tail: seq<Event>) {
    || tail == []
    || (kind == NonceRead && |tail| == 1 && tail[0].Fetched? && tail[0].nonce != "")
    || (kind != NonceRead && tail == [Opened(kind)])
    || (kind == FinalizePost && tail == [Opened(kind), Processed])
  }

  // What an acceptable answer leaves, from the state in which the request was sent.
  predicate Accepted(g: Guard, kind: Kind, tail: seq<Event>, r: Guard) {
    && r.terms.expires <= g.terms.expires && !r.failed
    && if kind == NonceRead then
         |tail| == 1 && tail[0].Fetched? && r == g.(wire := g.wire.(nonce := tail[0].nonce))
       else if kind == OrderPost then
         && |tail| == 1
         && |r.terms.authz| == |g.job.names| && (forall u | u in r.terms.authz :: u.AuthzUrl?)
             && Distinct(r.terms.authz)
         && (r.terms.certificate.Some? ==> g.job.refresh && r.terms.certificate.value.CertUrl?)
         && r == g.(stage := g.stage.(orderRead := true), terms := r.terms)
       else if kind == FinalizePost then
         && tail == (if r.stage.processing then [Opened(kind), Processed] else [Opened(kind)])
         && (r.terms.certificate.Some? ==> r.terms.certificate.value.CertUrl?)
             && (r.stage.processing ==> r.terms.certificate.None?)
         && r.terms.authz == g.terms.authz
         && r == g.(stage := g.stage.(finalized := true, processing := r.stage.processing), terms := r.terms)
       else if kind == CertificatePost then r == g.(stage := g.stage.(fetched := true))
       else r == g
  }

  lemma DeliverShape(g: Guard, kind: Kind, w: Content, now: Stamp)
    requires !g.failed && kind != NonceRead && ReadContent(g, kind, w, now).Some?
    ensures var d := ReadContent(g, kind, w, now);
            Accepted(g, kind, Look(kind, d), Deliver(g, kind, d.value)) && !Deliver(g, kind, d.value).failed
  {
    hide ReadAuthorization, LiveAt;
  }

  lemma ReadFrames(g: Guard, kind: Kind, w: Content, now: Stamp)
    ensures var d := ReadContent(g, kind, w, now);
            d.Some? && d.value.Authorization? ==> kind == AuthorizationPost
  {
    hide SameScope, LiveAt, ReadAuthorization;
  }

  // What came of a request, from the state in which it went out.
  predicate Concluded(sent: Guard, kind: Kind, tail: seq<Event>, r: Result) {
    && Tail(kind, tail)
    && (r.delivered.None? <==> r.guard.failed)
    && (if r.guard.failed then r.guard == sent.(failed := true) else Accepted(sent, kind, tail, r.guard))
    && (r.delivered.Some? && r.delivered.value.Authorization? ==> kind == AuthorizationPost)
  }

  lemma ReceiveShape(g: Guard, kind: Kind, t: Turn, a: Answer)
    requires !g.failed
    ensures Concluded(g, kind, Receive(g, kind, t, a).log, Receive(g, kind, t, a))
  {
    hide ReadContent, FitsHeaders, Deliver, Distinct;
    ReadFrames(g, kind, a.content, t.readAt);
    if kind != NonceRead && ReadContent(g, kind, a.content, t.readAt).Some? {
      hide Accepted;
      DeliverShape(g, kind, a.content, t.readAt);
    }
  }

  // A request the transport let through: what was sent and what came of it.
  predicate Sending(g: Guard, kind: Kind, q: Request, r: Result) {
    && r.log != [] && r.log[0] == Sent(kind, q.url, g.wire.nonce, q.body)
    && Concluded(Outgoing(g, kind, q.url), kind, r.log[1..], r)
    && r.guard.job == g.job && r.guard.terms.expires <= g.terms.expires
  }

  lemma OutgoingKeeps(g: Guard, kind: Kind, url: Url)
    ensures var r := Outgoing(g, kind, url);
            r.job == g.job && r.terms.expires == g.terms.expires && r.failed == g.failed
    ensures Refused(g, Refuse(Spend(g, kind, url), []))
  {
  }

  lemma SendShape(g: Guard, kind: Kind, t: Turn)
    requires !g.failed
    ensures var r := Send(g, kind, t);
            if r.log == [] then Refused(g, r) else Sending(g, kind, t.request, r)
  {
    hide Receive, Accepted, Outgoing, Spend;
    OutgoingKeeps(g, kind, t.request.url);
    var sent, e := Outgoing(g, kind, t.request.url), Sent(kind, t.request.url, g.wire.nonce, t.request.body);
    assert [e][1..] == [];
    if t.send && t.received && t.answer.Some? {
      hide Concluded;
      var r := Receive(sent, kind, t, t.answer.value);
      ReceiveShape(sent, kind, t, t.answer.value);
      assert ([e] + r.log)[1..] == r.log;
      ConclusionIgnoresLog(sent, kind, r.log, r, [e] + r.log);
      ConclusionKeepsJob(sent, kind, r.log, r);
    }
  }

  lemma ConclusionIgnoresLog(sent: Guard, kind: Kind, tail: seq<Event>, r: Result, log: seq<Event>)
    requires Concluded(sent, kind, tail, r)
    ensures Concluded(sent, kind, tail, r.(log := log))
  {
    hide Accepted, Tail;
  }

  lemma ConclusionKeepsJob(sent: Guard, kind: Kind, tail: seq<Event>, r: Result)
    requires Concluded(sent, kind, tail, r)
    ensures r.guard.job == sent.job && r.guard.terms.expires <= sent.terms.expires
  {
    hide Tail, Distinct;
  }

  // Nothing was sent: the transport is closed, and what the client may rely on is as it was.
  predicate Refused(g: Guard, r: Result) {
    && r.guard.failed && r.delivered.None? && r.guard.job == g.job && r.guard.terms.expires == g.terms.expires
    && r.guard.stage.authorized == g.stage.authorized && r.guard.stage.orderRead == g.stage.orderRead
        && r.guard.terms.authz == g.terms.authz
  }

  /** A round trip either refuses, for good and without sending, or sends exactly one admissible
      request, signed as it should be; after a processing answer it always refuses. */
  lemma StepShape(g: Guard, t: Turn)
    ensures var r := Step(g, t);
            if r.log == [] then Refused(g, r)
            else
              && !g.failed && !g.stage.processing && g.wire.requests < Limit(RulesOf(g)) && Classify(g, t.request).Some?
              && Sending(g, Classify(g, t.request).value, t.request, r) && Carries(g, r.log[0])
  {
    hide Send, Classify, Carries, Concluded;
    if !g.failed && Classify(g, t.request).Some? {
      SendShape(g, Classify(g, t.request).value, t);
      AdmittedIsSigned(g, t.request, Classify(g, t.request).value);
    }
  }

  // ---- Fetching the certificate ----

  predicate GoodChain(der: seq<string>) { 1 <= |der| <= 5 && Distinct(der) }

  // A delivered chain is a good one, answers a certificate request, and is what marks the fetch.
  predicate FetchShown(g: Guard, r: Result) {
    && (g.stage.fetched ==> r.guard.stage.fetched)
    && (r.delivered.Some? && r.delivered.value.Chain? ==> r.guard.stage.fetched && GoodChain(r.delivered.value.der))
    && (r.guard.stage.fetched && !g.stage.fetched ==> r.delivered.Some? && r.delivered.value.Chain?)
  }

  lemma ContentIsOfItsKind(g: Guard, kind: Kind, w: Content, now: Stamp)
    ensures var d := ReadContent(g, kind, w, now);
            d.Some? && (d.value.Chain? || kind == CertificatePost) ==>
              kind == CertificatePost && d.value.Chain? && GoodChain(d.value.der)
  {
    hide SameScope, LiveAt, Distinct;
  }

  lemma ReceiveShowsFetch(g: Guard, kind: Kind, t: Turn, a: Answer)
    ensures var r := Receive(g, kind, t, a);
            && FetchShown(g, r)
            && (r.delivered.Some? && r.delivered.value.Chain? ==> kind == CertificatePost && r.log == [Opened(kind)])
  {
    hide ReadContent, FitsHeaders, GoodChain, ValidToken;
    ContentIsOfItsKind(g, kind, a.content, t.readAt);
  }

  lemma FetchShape(g: Guard, t: Turn)
    ensures var r := Step(g, t);
            && FetchShown(g, r)
            && (r.delivered.Some? && r.delivered.value.Chain? ==>
                  |r.log| == 2 && SentAs(r.log[0], CertificatePost) && r.log[1] == Opened(CertificatePost))
  {
    hide Receive, Classify, GoodChain;
    if Classify(g, t.request).Some? && t.answer.Some? {
      var kind := Classify(g, t.request).value;
      ReceiveShowsFetch(Outgoing(g, kind, t.request.url), kind, t, t.answer.value);
    }
  }

  // ---- What the answers say ----

  // An order as each request of this transport may find it: ready, or on a refresh anything decided or not;
  // after finalize on its way or issued, with the very authorizations that were read.
  ghost predicate GoodOrder(g: Guard, w: Content, finalized: bool, now: Stamp) {
    && CoversNames(w, g.job.names, now) && w.finalize == FinalizeUrl(g.job.order)
    && (if finalized then
          && (w.status == Processing || w.status == Valid)
          && forall u :: multiset(w.authorizations)[u] == multiset(g.terms.authz)[u]
        else w.status == Ready
             || (g.job.refresh && w.status in {Pending, Processing, Valid, Invalid}))
    && (w.error ==> w.status == Invalid)
    && (w.certificate.Some? <==> w.status == Valid) && (w.certificate.Some? ==> w.certificate.value.CertUrl?)
  }

  /** An answer is read as an order if and only if it is a good one, and as a certificate if and only if it is
      one to five different certificates; what it leaves is the earlier deadline, its own certificate's
      address and, before finalize, its own authorizations. */
  lemma AnswersAreReadExactly(g: Guard, w: Content, now: Stamp)
    ensures ReadContent(g, OrderPost, w, now) == (if GoodOrder(g, w, false, now) then Some(w) else None)
    ensures ReadContent(g, FinalizePost, w, now) == (if GoodOrder(g, w, true, now) then Some(w) else None)
    ensures ReadContent(g, CertificatePost, w, now).Some? <==>
              w.Chain? && 1 <= |w.der| <= 5 && forall i, j | 0 <= i < j < |w.der| :: w.der[i] != w.der[j]
    ensures w.Order? ==>
              var read, done := Deliver(g, OrderPost, w), Deliver(g, FinalizePost, w);
              var expires := if w.expires < g.terms.expires then w.expires else g.terms.expires;
              && read == g.(stage := g.stage.(orderRead := true),
                            terms := Terms(expires, w.certificate, w.authorizations))
              && done == g.(stage := g.stage.(finalized := true, processing := w.status == Processing),
                            terms := Terms(expires, w.certificate, g.terms.authz))
  {
    if w.Order? {
      if forall u :: multiset(w.authorizations)[u] == multiset(g.terms.authz)[u] {
        assert multiset(w.authorizations) == multiset(g.terms.authz);
      }
      if forall n :: multiset(w.identifiers)[n] == multiset(g.job.names)[n] {
        assert multiset(w.identifiers) == multiset(g.job.names);
      }
    }
  }

  // What a request is for, if it may be sent at this stage at all.
  predicate Asks(g: Guard, q: Request, kind: Kind) {
    match kind
    case DirectoryRead => q.verb == Get && q.url == DirectoryUrl && q.body == NoBody && !g.stage.directory
    case NonceRead =>
      q.verb == Head && q.url == NonceUrl && q.body == NoBody && g.stage.directory && g.wire.nonce == ""
    case ChallengePost => false
    case _ =>
      && q.verb == Post && g.stage.directory && g.wire.nonce != "" && q.url !in g.wire.used
      && q.body == Signed(g.job.account, g.wire.nonce, q.url, if kind == FinalizePost then Csr(g.job.csr) else Empty)
      && var own := q.url == OrderUrl(g.job.order) && !g.stage.orderRead;
      && var finalize := q.url == FinalizeUrl(g.job.order) && !g.job.refresh && g.stage.authorized
           && !g.stage.finalized;
      && match kind
         case OrderPost => own
         case AuthorizationPost => g.stage.orderRead && !g.stage.authorized && q.url in g.terms.authz && !own
         case FinalizePost => finalize && !own
         case _ =>
           && g.stage.authorized && (g.job.refresh || g.stage.finalized) && g.terms.certificate == Some(q.url)
           && !own && !finalize
  }

  lemma ClassifiedExactly(g: Guard, q: Request, kind: Kind)
    ensures Classify(g, q) == Some(kind) <==> Asks(g, q, kind)
  {
  }

  /** A request is sent if and only if the transport is still open, permission holds at entry and at sending,
      the deadline is ahead, fewer than 23 were sent, it is to the pinned host, and it asks for something this
      stage has to ask for; its kind is then what it asks for. */
  lemma RequestsAreSentExactly(g: Guard, t: Turn, kind: Kind)
    ensures var r := Step(g, t);
            r.log != [] && r.log[0] == Sent(kind, t.request.url, g.wire.nonce, t.request.body) <==>
              && !g.failed && !g.stage.processing && t.entry && t.send && t.enteredAt < g.terms.expires
              && g.wire.requests < 23 && t.request.plain && Asks(g, t.request, kind)
    ensures Step(g, t).log != [] ==> Step(g, t).log[0].Sent?
  {
    hide Classify, Receive, Asks;
    ClassifiedExactly(g, t.request, kind);
  }

  // The headers of an answer allow it to be looked at.
  predicate Headed(g: Guard, kind: Kind, a: Answer) {
    && a.identity
    && if kind == NonceRead then a.status in {200, 204} && |a.nonces| == 1 && ValidToken(a.nonces[0])
       else
         && a.status == 200 && a.typed && a.sized
         && (|a.locations| == 0
             || (|a.locations| == 1 && a.locations[0] == OrderUrl(g.job.order) && kind in {OrderPost, FinalizePost}))
  }

  // What was answered is what this kind of request asks for.
  ghost predicate Answers(g: Guard, kind: Kind, w: Content, now: Stamp) {
    match kind
    case DirectoryRead => w.Directory?
    case NonceRead => true
    case OrderPost => GoodOrder(g, w, false, now)
    case FinalizePost => GoodOrder(g, w, true, now)
    case AuthorizationPost => ReadAuthorization(w, g.job.names, now).Some?
    case CertificatePost => w.Chain? && GoodChain(w.der)
    case ChallengePost => false
  }

  /** What was sent is answered acceptably if and only if an answer came while permission held, its headers fit
      the request and, unless only a nonce was asked for, its body was read and says what was asked. */
  lemma AnswersAreTakenExactly(g: Guard, t: Turn, kind: Kind)
    requires var r := Step(g, t);
             r.log != [] && r.log[0] == Sent(kind, t.request.url, g.wire.nonce, t.request.body)
    ensures Step(g, t).delivered.Some? <==>
              && t.answer.Some? && t.received && Headed(g, kind, t.answer.value)
              && (kind == NonceRead || (t.read && Answers(g, kind, t.answer.value.content, t.readAt)))
    ensures Step(g, t).delivered.Some? && kind == NonceRead ==>
              Step(g, t).guard.wire.nonce == t.answer.value.nonces[0]
  {
    hide Classify, ReadContent, ValidToken, GoodOrder, Deliver, Asks;
    ClassifiedExactly(g, t.request, kind);
    RequestsAreSentExactly(g, t, kind);
    if t.answer.Some? { HeadedExactly(Outgoing(g, kind, t.request.url), kind, t.answer.value); }
    if t.answer.Some? && kind != NonceRead {
      ContentAnswers(g, Outgoing(g, kind, t.request.url), kind, t.answer.value.content, t.readAt);
    }
  }

  lemma HeadedExactly(g: Guard, kind: Kind, a: Answer)
    ensures kind != NonceRead ==> (Headed(g, kind, a) <==> a.identity && FitsHeaders(g, kind, a))
  {
    if |a.locations| == 1 { assert a.locations[0] in a.locations; }
    hide ValidToken;
  }

  lemma ContentAnswers(g: Guard, sent: Guard, kind: Kind, w: Content, now: Stamp)
    requires sent.job == g.job && sent.terms == g.terms && kind != NonceRead
    ensures ReadContent(sent, kind, w, now).Some? <==> Answers(g, kind, w, now)
  {
    hide GoodOrder, ReadsOrder, ReadAuthorization;
    AnswersAreReadExactly(sent, w, now);
    GoodOrderFrames(g, sent, w, now);
  }

  lemma GoodOrderFrames(g: Guard, sent: Guard, w: Content, now: Stamp)
    requires sent.job == g.job && sent.terms == g.terms
    ensures GoodOrder(g, w, false, now) == GoodOrder(sent, w, false, now)
    ensures GoodOrder(g, w, true, now) == GoodOrder(sent, w, true, now)
  {
  }
}
