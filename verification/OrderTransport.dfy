/**
 The guarded transport of order preparation and DNS validation
 (orderTransport in internal/acmestaging/order.go): an arbitrary client on one side, an arbitrary
 server on the other, and a bounded conversation in between (RFC 8555 section 6.5).
 */
module OrderTransport {
  import opened Common
  import opened AcmeWire
  import opened Conversation

  datatype Guard = Guard(
    account: string, order: Option<Url>, names: seq<string>, validation: bool,
    nonce: string, expires: Stamp, authz: seq<Url>,
    directory: bool, orderRead: bool, failed: bool, requests: nat, used: set<Url>, challenges: map<Url, string>)

  // Everything outside the transport during one round trip: permission when it is asked for, whether
  // the checkpoint was made durable, the clock, and the server's answer if any.
  datatype Turn = Turn(
    request: Request, entry: bool, send: bool, received: bool, saved: bool, afterSave: bool, read: bool,
    now: Stamp, answer: Option<Answer>)

  datatype Result = Result(guard: Guard, log: seq<Event>, delivered: Option<Content>)

  function Fresh(account: string, order: Option<Url>, names: seq<string>, validation: bool): Guard {
    Guard(account, order, names, validation, "", NONE, [], false, false, false, 0, {}, map[])
  }

  function Target(g: Guard): Url { if g.order.None? then NewOrderUrl else g.order.value }

  function RulesOf(g: Guard): Rules {
    Preparing(g.account, Target(g), g.order.None?, g.names, g.validation)
  }

  predicate Creates(g: Guard, kind: Kind) { kind == OrderPost && g.order.None? }

  // ---- Admission ----

  predicate ValidJws(g: Guard, r: Request, create: bool) {
    && r.body.Signed? && r.body.kid == g.account && r.body.nonce == g.nonce && r.body.url == r.url
    && if create then r.body.payload == Identifiers(g.names)
       else if g.validation && r.url in g.challenges then r.body.payload == AcceptChallenge
       else r.body.payload == Empty
  }

  function PostKind(g: Guard, url: Url): Option<Kind> {
    if !g.orderRead && url == Target(g) then Some(OrderPost)
    else if g.orderRead && url in g.authz then Some(AuthorizationPost)
    else if g.validation && g.orderRead && url in g.challenges then Some(ChallengePost)
    else None
  }

  function Classify(g: Guard, r: Request): Option<Kind> {
    match r.verb
    case Get => if r.url == DirectoryUrl && r.body == NoBody && !g.directory then Some(DirectoryRead) else None
    case Head => if r.url == NonceUrl && r.body == NoBody && g.directory && g.nonce == "" then Some(NonceRead) else None
    case Post =>
      if !g.directory || g.nonce == "" || r.url in g.used then None else
      var kind := PostKind(g, r.url);
      if kind.None? || !ValidJws(g, r, Creates(g, kind.value)) then None else kind
    case OtherVerb => None
  }

  function Spend(g: Guard, kind: Kind, url: Url): Guard {
    match kind
    case DirectoryRead => g.(directory := true)
    case NonceRead => g
    case _ => g.(used := g.used + {url}, nonce := "")
  }

  // ---- Answers ----

  // The order's address: read from the answer to a creation, compared with the saved one otherwise.
  function Located(g: Guard, kind: Kind, a: Answer): Option<Url> {
    if Creates(g, kind) then
      if a.status == 201 && |a.locations| == 1 && a.locations[0].OrderUrl? then Some(a.locations[0]) else None
    else if a.status == 200 && |a.locations| <= 1
        && (forall u | u in a.locations :: u == Target(g)) then Some(Target(g))
    else None
  }

  predicate ReadsOrder(g: Guard, w: Content, now: Stamp) {
    && w.Order? && (w.status in {Pending, Ready} || (g.validation && w.status == Invalid))
    && LiveAt(w.expires, now) && w.certificate.None? && (w.error ==> g.validation && w.status == Invalid)
    && SameScope(w, g.names)
    && g.order.Some? && g.order.value.OrderUrl? && w.finalize == FinalizeUrl(g.order.value.id)
  }

  function ReadContent(g: Guard, kind: Kind, url: Url, w: Content, now: Stamp): Option<Content> {
    match kind
    case DirectoryRead => if w.Directory? then Some(w) else None
    case NonceRead => None
    case OrderPost => if ReadsOrder(g, w, now) then Some(w.(error := false)) else None
    case AuthorizationPost =>
      if g.validation then ReadAuthorization(w, g.names, now) else ReadPreparation(w, g.names, now)
    case ChallengePost =>
      if w.Challenged? && url in g.challenges && ReadsChallenge(w.challenge, url, g.challenges[url]) then Some(w)
          else None
    case FinalizePost | CertificatePost => None
  }

  function Refuse(g: Guard, log: seq<Event>): Result { Result(g.(failed := true), log, None) }

  function Deliver(g: Guard, kind: Kind, w: Content): Guard {
    if kind == OrderPost && w.Order? then g.(orderRead := true, authz := w.authorizations, expires := w.expires) else g
  }

  // From the moment the answer's headers are acceptable.
  function Open(g: Guard, kind: Kind, t: Turn, a: Answer, log: seq<Event>): Result {
    if !a.identity || !a.sized then Refuse(g, log)
    else if kind == NonceRead then
      if a.status in {200, 204} && |a.nonces| == 1 && ValidToken(a.nonces[0])
      then Result(g.(nonce := a.nonces[0]), log + [Fetched(a.nonces[0])], Some(Garbage))
      else Refuse(g, log)
    else if !a.typed || (kind != OrderPost && a.status != 200) then Refuse(g, log)
    else
      var seen := log + [Opened(kind)];
      var w := ReadContent(g, kind, t.request.url, a.content, t.now);
      if !t.read || w.None? then Refuse(g, seen)
      else Result(Deliver(g, kind, w.value), seen, w)
  }

  function Receive(g: Guard, kind: Kind, t: Turn, a: Answer, log: seq<Event>): Result {
    if kind != OrderPost then Open(g, kind, t, a, log) else
    var at := Located(g, kind, a);
    if at.None? then Refuse(g, log)
    else if g.order.Some? then Open(g, kind, t, a, log)
    else if !t.saved then Refuse(g, log)
    else if !t.afterSave then Refuse(g, log + [Saved(at.value)])
    else Open(g.(order := at), kind, t, a, log + [Saved(at.value)])
  }

  function Send(g: Guard, kind: Kind, t: Turn): Result {
    var spent := Spend(g, kind, t.request.url);
    if !t.send then Refuse(spent, []) else
    var log := [Sent(kind, t.request.url, g.nonce, t.request.body)];
    var sent := spent.(requests := spent.requests + 1);
    if t.answer.None? || !t.received then Refuse(sent, log) else Receive(sent, kind, t, t.answer.value, log)
  }

  /** One round trip. */
  function Step(g: Guard, t: Turn): Result {
    if g.failed || !t.entry || g.requests >= Limit(RulesOf(g)) || !t.request.plain then Refuse(g, []) else
    var kind := Classify(g, t.request);
    if kind.None? then Refuse(g, []) else Send(g, kind.value, t)
  }

  // ---- Runs ----

  // The client may also be lent challenge authority, once, for at most one challenge a name.
  datatype Action = RoundTrip(turn: Turn) | Lend(challenges: map<Url, string>)

  predicate MayLend(g: Guard, challenges: map<Url, string>) {
    && !g.failed && g.validation && g.challenges == map[] && |challenges| <= |g.names|
    && forall u | u in challenges :: u.ChallengeUrl?
  }

  function Act(g: Guard, a: Action): Result {
    match a
    case RoundTrip(t) => Step(g, t)
    case Lend(challenges) =>
      if MayLend(g, challenges) then Result(g.(challenges := challenges), [Lent(challenges.Keys)], None)
      else Result(g, [], None)
  }

  function Run(start: Guard, actions: seq<Action>): (Guard, seq<Event>) {
    if actions == [] then (start, []) else
    var (g, log) := Run(start, actions[..|actions| - 1]);
    var next := Act(g, actions[|actions| - 1]);
    (next.guard, log + next.log)
  }

  // What a request that leaves the process carries: a read nothing; a post the account's signature over its
  // own address and the nonce it spends, asking for a new order of exactly these names, for a lent
  // challenge to be taken up, or just for what is there.
  predicate Carries(g: Guard, e: Event) {
    && e.Sent? && e.nonce == g.nonce
    && if e.kind == DirectoryRead || e.kind == NonceRead then e.body == NoBody
       else e.body == Signed(g.account, g.nonce, e.url,
                             if e.kind == OrderPost && g.order.None? then Identifiers(g.names)
                             else if g.validation && e.url in g.challenges then AcceptChallenge else Empty)
  }

  lemma AdmittedIsSigned(g: Guard, r: Request, kind: Kind)
    requires Classify(g, r) == Some(kind)
    ensures Carries(g, Sent(kind, r.url, g.nonce, r.body))
  {
  }

  class Transport {
    const account: string
    const names: seq<string>
    const validation: bool
    var order: Option<Url>
    var nonce: string
    var expires: Stamp
    var authz: seq<Url>
    var directory: bool
    var orderRead: bool
    var failed: bool
    var requests: nat
    var used: set<Url>
    var challenges: map<Url, string>
    ghost var log: seq<Event>

    function State(): Guard
      reads this
    {
      Guard(account, order, names, validation, nonce, expires, authz, directory, orderRead, failed, requests, used,
          challenges)
    }

    constructor (account: string, order: Option<Url>, names: seq<string>, validation: bool)
      ensures State() == Fresh(account, order, names, validation) && log == []
    {
      this.account, this.order, this.names, this.validation := account, order, names, validation;
      nonce, expires, authz := "", NONE, [];
      directory, orderRead, failed, requests := false, false, false, 0;
      used, challenges, log := {}, map[], [];
    }

    /** Whatever the client asks and the server answers: exactly one Step, and what it sends, if anything,
        carries what it should. */
    method RoundTrip(t: Turn) returns (delivered: Option<Content>)
      modifies this
      ensures var r := Step(old(State()), t); State() == r.guard && log == old(log) + r.log && delivered == r.delivered
      ensures log == old(log) || (|log| > |old(log)| && Carries(old(State()), log[|old(log)|]))
    {
      StepShape(State(), t);
      hide Send, Classify;
      delivered := None;
      if failed || !t.entry || requests >= Limit(RulesOf(State())) || !t.request.plain {
        failed := true;
        return;
      }
      var kind := Classify(State(), t.request);
      if kind.None? {
        failed := true;
        return;
      }
      delivered := Dispatch(kind.value, t);
    }

    // What admitting a request uses up.
    method Use(kind: Kind, url: Url)
      modifies this
      ensures State() == Spend(old(State()), kind, url) && log == old(log)
    {
      if kind == DirectoryRead {
        directory := true;
      } else if kind != NonceRead {
        used, nonce := used + {url}, "";
      }
    }

    method Dispatch(kind: Kind, t: Turn) returns (delivered: Option<Content>)
      modifies this
      ensures var r := Send(old(State()), kind, t);
              State() == r.guard && log == old(log) + r.log && delivered == r.delivered
    {
      hide Receive, Spend;
      delivered := None;
      var spent := nonce;
      Use(kind, t.request.url);
      if !t.send {
        failed := true;
        return;
      }
      requests := requests + 1;
      log := log + [Sent(kind, t.request.url, spent, t.request.body)];
      if t.answer.None? || !t.received {
        failed := true;
        return;
      }
      ReceiveAppends(State(), kind, t, t.answer.value, old(log), [Sent(kind, t.request.url, spent, t.request.body)]);
      delivered := Answered(kind, t, t.answer.value);
    }

    // The checks on an answer, in the order they are made.
    method Answered(kind: Kind, t: Turn, a: Answer) returns (delivered: Option<Content>)
      modifies this
      ensures var r := Receive(old(State()), kind, t, a, old(log));
              State() == r.guard && log == r.log && delivered == r.delivered
    {
      hide Open, Located;
      delivered := None;
      if kind == OrderPost {
        var at := Located(State(), kind, a);
        if at.None? {
          failed := true;
          return;
        }
        if order.None? {
          if !t.saved {
            failed := true;
            return;
          }
          log := log + [Saved(at.value)];
          if !t.afterSave {
            failed := true;
            return;
          }
          order := at;
        }
      }
      delivered := Opening(kind, t, a);
    }

    method Opening(kind: Kind, t: Turn, a: Answer) returns (delivered: Option<Content>)
      modifies this
      ensures var r := Open(old(State()), kind, t, a, old(log));
              State() == r.guard && log == r.log && delivered == r.delivered
    {
      hide ReadContent, ValidToken;
      delivered := None;
      if !a.identity || !a.sized || (kind != NonceRead && (!a.typed || (kind != OrderPost && a.status != 200))) {
        failed := true;
        return;
      }
      if kind == NonceRead {
        if a.status !in {200, 204} || |a.nonces| != 1 || !ValidToken(a.nonces[0]) {
          failed := true;
          return;
        }
        nonce, log := a.nonces[0], log + [Fetched(a.nonces[0])];
        return Some(Garbage);
      }
      log := log + [Opened(kind)];
      var w := ReadContent(State(), kind, t.request.url, a.content, t.now);
      if !t.read || w.None? {
        failed := true;
        return;
      }
      if kind == OrderPost && w.value.Order? {
        authz, expires, orderRead := w.value.authorizations, w.value.expires, true;
      }
      delivered := w;
    }
  }

  lemma OpenAppends(g: Guard, kind: Kind, t: Turn, a: Answer, before: seq<Event>, log: seq<Event>)
    ensures var r, r' := Open(g, kind, t, a, log), Open(g, kind, t, a, before + log);
            r'.guard == r.guard && r'.delivered == r.delivered && r'.log == before + r.log
  {
    hide ReadContent, ValidToken, Deliver;
    if kind == NonceRead && |a.nonces| == 1 {
      assert (before + log) + [Fetched(a.nonces[0])] == before + (log + [Fetched(a.nonces[0])]);
    }
    assert (before + log) + [Opened(kind)] == before + (log + [Opened(kind)]);
  }

  lemma ReceiveAppends(g: Guard, kind: Kind, t: Turn, a: Answer, before: seq<Event>, log: seq<Event>)
    ensures var r, r' := Receive(g, kind, t, a, log), Receive(g, kind, t, a, before + log);
            r'.guard == r.guard && r'.delivered == r.delivered && r'.log == before + r.log
  {
    hide Open, Located;
    OpenAppends(g, kind, t, a, before, log);
    var at := Located(g, kind, a);
    if at.Some? {
      OpenAppends(g.(order := at), kind, t, a, before, log + [Saved(at.value)]);
      assert (before + log) + [Saved(at.value)] == before + (log + [Saved(at.value)]);
    }
  }

  // ---- What one round trip can do ----

  // What follows a request in the log.
  predicate Tail(creates: bool, kind: Kind, tail: seq<Event>) {
    || tail == []
    || (kind == NonceRead && |tail| == 1 && tail[0].Fetched? && tail[0].nonce != "")
    || (kind != NonceRead && !creates && tail == [Opened(kind)])
    || (creates && |tail| == 1 && tail[0].Saved?)
    || (creates && |tail| == 2 && tail[0].Saved? && tail[1] == Opened(kind))
  }

  // The transport after a request that was answered acceptably.
  predicate Succeeds(g: Guard, kind: Kind, url: Url, tail: seq<Event>, g': Guard) {
    match kind
    case DirectoryRead => g' == g.(requests := g.requests + 1, directory := true)
    case NonceRead => |tail| == 1 && tail[0].Fetched? && g' == g.(requests := g.requests + 1, nonce := tail[0].nonce)
    case OrderPost =>
      && |tail| > 0 && tail[|tail| - 1] == Opened(kind)
      && g'.orderRead && |g'.authz| == |g.names| && (forall u | u in g'.authz :: u.AuthzUrl?) && Distinct(g'.authz)
      && g'.order == (if |tail| == 2 && tail[0].Saved? then Some(tail[0].order) else g.order) && g'.order.Some?
      && g' == g.(requests := g.requests + 1, used := g.used + {url}, nonce := "", orderRead := true,
                  authz := g'.authz, expires := g'.expires, order := g'.order)
    case _ => g' == g.(requests := g.requests + 1, used := g.used + {url}, nonce := "")
  }

  lemma OpenShape(g: Guard, kind: Kind, t: Turn, a: Answer, log: seq<Event>)
    requires !g.failed
    ensures var r := Open(g, kind, t, a, log);
            && (r.log == log || (kind == NonceRead && |r.log| == |log| + 1 && r.log[|log|].Fetched?
                && r.log[|log|].nonce != "" && r.log[..|log|] == log)
                || (kind != NonceRead && r.log == log + [Opened(kind)]))
            && (r.guard.failed ==> r.guard == g.(failed := true))
            && (!r.guard.failed ==>
                  match kind
                  case NonceRead => |r.log| == |log| + 1 && r.guard == g.(nonce := r.log[|log|].nonce)
                  case OrderPost =>
                    && r.log == log + [Opened(kind)] && g.order.Some? && g.order.value.OrderUrl?
                    && |r.guard.authz| == |g.names| && (forall u | u in r.guard.authz :: u.AuthzUrl?)
                        && Distinct(r.guard.authz)
                    && r.guard == g.(orderRead := true, authz := r.guard.authz, expires := r.guard.expires)
                  case _ => r.log == log + [Opened(kind)] && r.guard == g)
  {
    hide ReadPreparation, ReadAuthorization, ReadsChallenge, LiveAt;
  }

  // A request the transport let through: what was sent, what followed, and the state it left.
  predicate Sending(g: Guard, kind: Kind, q: Request, r: Result) {
    && r.log != [] && r.log[0] == Sent(kind, q.url, g.nonce, q.body)
    && Tail(Creates(g, kind), kind, r.log[1..])
    && r.guard.requests == g.requests + 1 && r.guard.challenges == g.challenges
    && (!r.guard.failed ==> Succeeds(g, kind, q.url, r.log[1..], r.guard))
  }

  predicate SameParties(g: Guard, g': Guard) {
    g'.account == g.account && g'.names == g.names && g'.validation == g.validation && g'.challenges == g.challenges
  }

  lemma NothingFollows(creates: bool, kind: Kind)
    ensures Tail(creates, kind, [])
  {
  }

  // What an answer leads to, from the state in which the request was sent.
  predicate Answering(g: Guard, kind: Kind, tail: seq<Event>, r: Guard) {
    && Tail(Creates(g, kind), kind, tail) && SameParties(g, r) && r.requests == g.requests
    && (!r.failed ==>
          match kind
          case DirectoryRead => r == g
          case NonceRead => |tail| == 1 && tail[0].Fetched? && r == g.(nonce := tail[0].nonce)
          case OrderPost =>
            && |tail| > 0 && tail[|tail| - 1] == Opened(kind)
            && |r.authz| == |g.names| && (forall u | u in r.authz :: u.AuthzUrl?) && Distinct(r.authz)
            && r.order == (if |tail| == 2 && tail[0].Saved? then Some(tail[0].order) else g.order) && r.order.Some?
            && r == g.(orderRead := true, authz := r.authz, expires := r.expires, order := r.order)
          case _ => r == g)
  }

  lemma CreationShape(g: Guard, t: Turn, a: Answer)
    requires !g.failed && g.order.None?
    ensures Answering(g, OrderPost, Receive(g, OrderPost, t, a, []).log, Receive(g, OrderPost, t, a, []).guard)
  {
    hide Open, Located, Distinct;
    var at := Located(g, OrderPost, a);
    if at.Some? {
      assert [] + [Saved(at.value)] == [Saved(at.value)];
      OpenShape(g.(order := at), OrderPost, t, a, [Saved(at.value)]);
    }
  }

  lemma ReceiveShape(g: Guard, kind: Kind, t: Turn, a: Answer)
    requires !g.failed
    ensures Answering(g, kind, Receive(g, kind, t, a, []).log, Receive(g, kind, t, a, []).guard)
  {
    hide Open, Located, Distinct;
    if kind == OrderPost && g.order.None? {
      hide Receive, Answering;
      CreationShape(g, t, a);
    } else {
      assert [] + [Opened(kind)] == [Opened(kind)];
      OpenShape(g, kind, t, a, []);
    }
  }

  lemma SendShape(g: Guard, kind: Kind, t: Turn)
    requires !g.failed
    ensures var r := Send(g, kind, t);
            && SameParties(g, r.guard)
            && (if r.log == [] then r.guard.failed && r.guard.requests == g.requests
                else Sending(g, kind, t.request, r))
  {
    hide Receive, Distinct, Tail;
    NothingFollows(Creates(g, kind), kind);
    var e := Sent(kind, t.request.url, g.nonce, t.request.body);
    assert [e][1..] == [];
    if t.send && t.answer.Some? && t.received {
      var sent := Spend(g, kind, t.request.url).(requests := g.requests + 1);
      var after := Receive(sent, kind, t, t.answer.value, []);
      ReceiveShape(sent, kind, t, t.answer.value);
      ReceiveAppends(sent, kind, t, t.answer.value, [e], []);
      assert [e] + [] == [e];
      assert ([e] + after.log)[1..] == after.log;
    }
  }

  /** A round trip either refuses, for good and without sending, or sends exactly one admissible request,
      signed as it should be. */
  lemma StepShape(g: Guard, t: Turn)
    ensures var r := Step(g, t);
            && SameParties(g, r.guard)
            && (if r.log == [] then r.guard.failed && r.guard.requests == g.requests
                else
                  && !g.failed && g.requests < Limit(RulesOf(g)) && Classify(g, t.request).Some?
                  && Sending(g, Classify(g, t.request).value, t.request, r) && Carries(g, r.log[0]))
  {
    hide Send, Classify, Carries, Succeeds, Tail;
    if !g.failed && Classify(g, t.request).Some? {
      SendShape(g, Classify(g, t.request).value, t);
      AdmittedIsSigned(g, t.request, Classify(g, t.request).value);
    }
  }

  // An order that preparation or validation may look at: for exactly the names asked for, at its own address
  // and still to be decided.
  ghost predicate GoodOrder(g: Guard, w: Content, now: Stamp) {
    && CoversNames(w, g.names, now) && w.certificate.None?
    && (w.status == Pending || w.status == Ready || (g.validation && w.status == Invalid))
    && (w.error ==> w.status == Invalid)
    && g.order.Some? && g.order.value.OrderUrl? && w.finalize == FinalizeUrl(g.order.value.id)
  }

  /** An answer is read as an order if and only if it is a good one, as what it is but for its error, and the
      authorizations to be read and the deadline are then its own; a challenge's answer is read if and only
      if it is that very challenge, with the token it was lent under. */
  lemma AnswersAreReadExactly(g: Guard, url: Url, w: Content, now: Stamp)
    ensures var read := ReadContent(g, OrderPost, url, w, now);
            && (read.Some? <==> GoodOrder(g, w, now))
            && (read.Some? ==>
                  && read.value == w.(error := false)
                  && Deliver(g, OrderPost, read.value)
                     == g.(orderRead := true, authz := w.authorizations, expires := w.expires))
    ensures var read := ReadContent(g, ChallengePost, url, w, now);
            && (read.Some? <==>
                  && w.Challenged? && url.ChallengeUrl? && w.challenge.url == url && w.challenge.dns
                  && url in g.challenges && w.challenge.token == g.challenges[url] && ValidToken(w.challenge.token)
                  && w.challenge.status in {Pending, Processing, Valid, Invalid}
                  && (w.challenge.error ==> w.challenge.status == Invalid))
            && (read.Some? ==> read.value == w && Deliver(g, ChallengePost, w) == g)
  {
    hide ValidToken;
  }

  // What a request is for, if it may be sent at this stage at all.
  predicate Asks(g: Guard, q: Request, kind: Kind) {
    match kind
    case DirectoryRead => q.verb == Get && q.url == DirectoryUrl && q.body == NoBody && !g.directory
    case NonceRead => q.verb == Head && q.url == NonceUrl && q.body == NoBody && g.directory && g.nonce == ""
    case FinalizePost | CertificatePost => false
    case _ =>
      && q.verb == Post && g.directory && g.nonce != "" && q.url !in g.used
      && Carries(g, Sent(kind, q.url, g.nonce, q.body))
      && (kind == OrderPost ==>
            !g.orderRead && (g.order == Some(q.url) || (g.order.None? && q.url == NewOrderUrl)))
      && (kind == AuthorizationPost ==> g.orderRead && q.url in g.authz)
      && (kind == ChallengePost ==> g.orderRead && q.url !in g.authz && g.validation && q.url in g.challenges)
  }

  lemma ClassifiedExactly(g: Guard, q: Request, kind: Kind)
    ensures Classify(g, q) == Some(kind) <==> Asks(g, q, kind)
    ensures Asks(g, q, kind) ==> kind != FinalizePost && kind != CertificatePost
  {
  }

  /** A request is sent if and only if the transport is still open, permission holds at entry and at sending,
      fewer than 19 were sent, or 35 when validating, it is to the pinned host, and it asks for something this
      stage has to ask for; its kind is then what it asks for. */
  lemma RequestsAreSentExactly(g: Guard, t: Turn, kind: Kind)
    ensures var r := Step(g, t);
            r.log != [] && r.log[0] == Sent(kind, t.request.url, g.nonce, t.request.body) <==>
              && !g.failed && t.entry && t.send && g.requests < (if g.validation then 35 else 19)
              && t.request.plain && Asks(g, t.request, kind)
    ensures Step(g, t).log != [] ==> Step(g, t).log[0].Sent?
  {
    hide Classify, Receive, Asks;
    ClassifiedExactly(g, t.request, kind);
    if Classify(g, t.request).Some? && t.answer.Some? {
      var sent := Spend(g, Classify(g, t.request).value, t.request.url).(requests := g.requests + 1);
      var e := Sent(Classify(g, t.request).value, t.request.url, g.nonce, t.request.body);
      ReceiveAppends(sent, e.kind, t, t.answer.value, [e], []);
      assert [e] + [] == [e];
    }
  }

  // Where the answer says the order is: a new one's own address, or none but the one asked.
  predicate LocatedWell(g: Guard, a: Answer) {
    if g.order.None? then a.status == 201 && |a.locations| == 1 && a.locations[0].OrderUrl?
    else a.status == 200 && (|a.locations| == 0 || (|a.locations| == 1 && a.locations[0] == g.order.value))
  }

  // An answer allows its body to be looked at: a new order's only once its address is durable.
  predicate Headed(g: Guard, kind: Kind, t: Turn, a: Answer) {
    && a.identity && a.sized
    && match kind
       case NonceRead => a.status in {200, 204} && |a.nonces| == 1 && ValidToken(a.nonces[0])
       case OrderPost => a.typed && LocatedWell(g, a) && (g.order.None? ==> t.saved && t.afterSave)
       case _ => a.typed && a.status == 200
  }

  // What was answered is what this kind of request asks for; the order is then at its own address.
  ghost predicate Answers(g: Guard, kind: Kind, url: Url, a: Answer, now: Stamp) {
    match kind
    case DirectoryRead => a.content.Directory?
    case NonceRead => true
    case OrderPost =>
      GoodOrder(if g.order.None? && |a.locations| == 1 then g.(order := Some(a.locations[0])) else g, a.content, now)
    case AuthorizationPost =>
      if g.validation then ReadAuthorization(a.content, g.names, now).Some?
      else ReadPreparation(a.content, g.names, now).Some?
    case ChallengePost =>
      && a.content.Challenged? && url in g.challenges && ReadsChallenge(a.content.challenge, url, g.challenges[url])
    case FinalizePost | CertificatePost => false
  }

  lemma LocatedExactly(g: Guard, kind: Kind, a: Answer)
    requires kind == OrderPost
    ensures Located(g, kind, a).Some? <==> LocatedWell(g, a)
    ensures Located(g, kind, a).Some? ==>
              Located(g, kind, a) == Some(if g.order.None? then a.locations[0] else g.order.value)
  {
    if |a.locations| == 1 { assert a.locations[0] in a.locations; }
  }

  lemma ContentAnswers(g: Guard, sent: Guard, kind: Kind, url: Url, a: Answer, now: Stamp)
    requires SameParties(g, sent) && kind != NonceRead
    requires sent.order == (if g.order.None? && kind == OrderPost && |a.locations| == 1 then Some(a.locations[0])
                            else g.order)
    ensures ReadContent(sent, kind, url, a.content, now).Some? <==> Answers(g, kind, url, a, now)
  {
    hide ReadsOrder, ReadAuthorization, ReadPreparation, ReadsChallenge;
    AnswersAreReadExactly(sent, url, a.content, now);
    hide CoversNames;
  }

  /** What was sent is answered acceptably if and only if an answer came while permission held, its headers fit
      the request, a new order's address could be made durable first, and, unless only a nonce was asked
      for, its body was read and says what was asked. */
  lemma AnswersAreTakenExactly(g: Guard, t: Turn, kind: Kind)
    requires var r := Step(g, t);
             r.log != [] && r.log[0] == Sent(kind, t.request.url, g.nonce, t.request.body)
    ensures Step(g, t).delivered.Some? <==>
              && t.answer.Some? && t.received && Headed(g, kind, t, t.answer.value)
              && (kind == NonceRead || (t.read && Answers(g, kind, t.request.url, t.answer.value, t.now)))
  {
    hide Classify, Asks, Receive, Headed, Answers;
    ClassifiedExactly(g, t.request, kind);
    RequestsAreSentExactly(g, t, kind);
    if t.answer.Some? {
      var sent := Spend(g, kind, t.request.url).(requests := g.requests + 1);
      var e := Sent(kind, t.request.url, g.nonce, t.request.body);
      ReceiveTakes(g, sent, kind, t, t.answer.value, [e]);
    }
  }

  lemma ReceiveTakes(g: Guard, sent: Guard, kind: Kind, t: Turn, a: Answer, log: seq<Event>)
    requires SameParties(g, sent) && sent.order == g.order && kind != FinalizePost && kind != CertificatePost
    ensures Receive(sent, kind, t, a, log).delivered.Some? <==>
              Headed(g, kind, t, a) && (kind == NonceRead || (t.read && Answers(g, kind, t.request.url, a, t.now)))
  {
    hide Answers, ReadContent, Located, LocatedWell, ValidToken, Deliver;
    if kind == OrderPost {
      LocatedExactly(sent, kind, a);
      LocatedWellFrames(g, sent, a);
    }
    if kind != NonceRead && (kind == OrderPost && g.order.None? ==> LocatedWell(g, a)) {
      var at := if kind == OrderPost && g.order.None? then sent.(order := Located(sent, kind, a)) else sent;
      LocatedIsAlone(g, a);
      ContentAnswers(g, at, kind, t.request.url, a, t.now);
    }
  }

  lemma LocatedWellFrames(g: Guard, sent: Guard, a: Answer)
    requires sent.order == g.order
    ensures LocatedWell(g, a) == LocatedWell(sent, a)
  {
  }

  lemma LocatedIsAlone(g: Guard, a: Answer)
    ensures g.order.None? && LocatedWell(g, a) ==> |a.locations| == 1
  {
  }
}
