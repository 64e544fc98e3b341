/**
 Whole conversations of the order and validation transport: what any client and any server can
 make it send, in which order, and that the request limit never stops an honest client.
 */
module OrderRuns {
  import opened Common
  import opened AcmeWire
  import opened Conversation
  import opened OrderTransport

  // ---- The transport follows the rules ----

  predicate Tracks(start: Guard, g: Guard, v: View) {
    && g.account == start.account && g.names == start.names && g.validation == start.validation
    && (!g.failed ==>
          && v.sends == g.requests && v.posted == g.used && v.held == g.nonce && v.lent == g.challenges.Keys
          && v.ordered == v.looked == g.orderRead && !v.granted && !v.processing
          && (g.directory <==> v.sends > 0)
          && g.order == (if v.saved.Some? then v.saved else start.order)
          && (v.saved.Some? ==> start.order.None? && v.looked))
  }

  // Where a post may still go, and what the posts so far have cost.
  predicate Budget(start: Guard, g: Guard) {
    && |g.challenges| <= (if g.validation then |g.names| else 0)
    && (!g.failed ==>
          && g.requests == (if g.directory then 1 else 0) + 2 * |g.used| + (if g.nonce != "" then 1 else 0)
          && (!g.directory ==> g.used == {} && g.nonce == "")
          && (if g.orderRead then
                |g.authz| == |g.names| && (forall u | u in g.authz :: u.AuthzUrl?)
                && g.used <= {Target(start)} + Set(g.authz) + g.challenges.Keys && Target(start) in g.used
              else g.used == {} && g.authz == []))
  }

  predicate Conforms(start: Guard, g: Guard, log: seq<Event>) {
    Tracks(start, g, Observe(log)) && Budget(start, g) && Legal(log, RulesOf(start))
  }

  lemma TailIsLawful(log: seq<Event>, kind: Kind, tail: seq<Event>, creates: bool, rules: Rules)
    requires Legal(log, rules) && Tail(creates, kind, tail) && (creates ==> Creating(rules) && kind == OrderPost)
    requires var v := Observe(log);
             && !v.processing && (kind == NonceRead ==> v.asked && v.held == "")
             && (kind == OrderPost ==> v.ordered && !v.looked && v.saved.None? && (creates <==> Creating(rules)))
    ensures Legal(log + tail, rules)
    ensures tail == [] ==> Observe(log + tail) == Observe(log)
    ensures |tail| == 1 ==> Observe(log + tail) == Watch(Observe(log), tail[0])
    ensures |tail| == 2 ==> Observe(log + tail) == Watch(Watch(Observe(log), tail[0]), tail[1])
  {
    hide Legal, Observe;
    if tail == [] {
      assert log + tail == log;
    } else {
      if |tail| == 1 && creates == tail[0].Saved? {
        assert tail == [tail[0]];
      }
      Extend(log, tail[0], rules);
      assert log + tail[..1] == log + [tail[0]];
      if |tail| == 2 {
        Extend(log + [tail[0]], tail[1], rules);
        assert log + tail == (log + [tail[0]]) + [tail[1]];
      } else {
        assert log + tail == log + [tail[0]];
      }
    }
  }

  // ---- One action ----

  // What admission says about a request that was let through.
  predicate Entitled(start: Guard, g: Guard, v: View, kind: Kind, url: Url) {
    && g.directory == (kind != DirectoryRead) && kind !in {FinalizePost, CertificatePost}
    && (kind == NonceRead ==> g.nonce == "")
    && (kind !in {DirectoryRead, NonceRead} ==> g.nonce != "" && url !in g.used)
    && (kind == OrderPost ==>
          g.order == start.order && !g.orderRead && g.used == {} && url == Target(start) && !v.looked && v.saved.None?)
    && (kind == AuthorizationPost ==> g.orderRead && url in g.authz)
    && (kind == ChallengePost ==> g.orderRead && url in g.challenges)
  }

  lemma AdmittedIsEntitled(start: Guard, g: Guard, v: View, r: Request, kind: Kind)
    requires Tracks(start, g, v) && Budget(start, g)
    requires !g.failed && Classify(g, r) == Some(kind)
    ensures Entitled(start, g, v, kind, r.url)
    ensures kind == DirectoryRead ==> r.url == DirectoryUrl
    ensures kind == NonceRead ==> r.url == NonceUrl
    ensures kind == AuthorizationPost ==> r.url.AuthzUrl?
    ensures kind == ChallengePost ==> g.validation
  {
    hide ValidJws, Distinct;
  }

  lemma SentIsLawful(start: Guard, g: Guard, v: View, r: Request, kind: Kind)
    requires Tracks(start, g, v) && Budget(start, g)
    requires !g.failed && g.requests < Limit(RulesOf(g)) && Classify(g, r) == Some(kind)
    ensures Lawful(v, Sent(kind, r.url, g.nonce, r.body), RulesOf(start)) && Entitled(start, g, v, kind, r.url)
  {
    hide Classify, Budget;
    AdmittedIsEntitled(start, g, v, r, kind);
    AdmittedIsSigned(g, r, kind);
  }

  lemma RefusedTurn(start: Guard, g: Guard, log: seq<Event>, t: Turn)
    requires Conforms(start, g, log) && Step(g, t).log == []
    ensures Conforms(start, Step(g, t).guard, log + Step(g, t).log)
  {
    hide Legal, Step, Classify;
    StepShape(g, t);
    assert log + Step(g, t).log == log;
  }

  lemma SentTurn(start: Guard, g: Guard, log: seq<Event>, t: Turn)
    requires Conforms(start, g, log) && Step(g, t).log != []
    ensures Conforms(start, Step(g, t).guard, log + Step(g, t).log)
  {
    hide Legal, Step, Classify, Tail, Observe, Lawful, Budget, Tracks, Succeeds;
    StepShape(g, t);
    var r := Step(g, t);
    var kind, v := Classify(g, t.request).value, Observe(log);
    var sent := Sent(kind, t.request.url, g.nonce, t.request.body);
    SentIsLawful(start, g, v, t.request, kind);
    Extend(log, sent, RulesOf(start));
    TracksSent(start, g, v, kind, t.request, r);
    TailIsLawful(log + [sent], kind, r.log[1..], Creates(g, kind), RulesOf(start));
    assert (log + [sent]) + r.log[1..] == log + r.log;
    BudgetHolds(start, g, v, kind, t.request, r);
  }

  lemma TracksSent(start: Guard, g: Guard, v: View, kind: Kind, q: Request, r: Result)
    requires Tracks(start, g, v) && !g.failed && Sending(g, kind, q, r) && SameParties(g, r.guard)
    requires Entitled(start, g, v, kind, q.url)
    ensures var sent := Watch(v, Sent(kind, q.url, g.nonce, q.body));
            && |r.log| <= 3 && Tracks(start, r.guard, WatchTail(sent, r.log[1..]))
            && !sent.processing && (kind == NonceRead ==> sent.asked && sent.held == "")
            && (kind == OrderPost ==> sent.ordered && !sent.looked && sent.saved.None?)
            && (Creates(g, kind) ==> start.order.None? && kind == OrderPost)
            && (kind == OrderPost ==> (Creates(g, kind) <==> start.order.None?))
  {
    TailViews(Creates(g, kind), kind, r.log[1..]);
    hide Tail, Distinct;
  }

  lemma TailViews(creates: bool, kind: Kind, tail: seq<Event>)
    requires Tail(creates, kind, tail)
    ensures |tail| <= 2
    ensures |tail| >= 1 && tail[0].Fetched? ==> kind == NonceRead && |tail| == 1
    ensures |tail| >= 1 && tail[0].Saved? ==> creates && (|tail| == 2 ==> tail[1] == Opened(kind))
    ensures |tail| >= 1 && tail[0].Opened? ==> tail == [Opened(kind)] && !creates && kind != NonceRead
    ensures |tail| >= 1 ==> tail[0].Fetched? || tail[0].Saved? || tail[0].Opened?
  {
  }

  // The budget of a request that is no post; of the order post; of the posts that follow it.
  lemma BudgetOfReads(start: Guard, g: Guard, v: View, kind: Kind, url: Url, r: Result)
    requires |r.log| > 0 && Budget(start, g) && Succeeds(g, kind, url, r.log[1..], r.guard)
    requires Entitled(start, g, v, kind, url) && kind in {DirectoryRead, NonceRead}
    requires kind == NonceRead ==> |r.log| == 2 && r.log[1].Fetched? && r.log[1].nonce != ""
    ensures !r.guard.failed ==> Budget(start, r.guard)
  {
  }

  lemma BudgetOfOrder(start: Guard, g: Guard, v: View, url: Url, r: Result)
    requires |r.log| > 0 && Budget(start, g) && Succeeds(g, OrderPost, url, r.log[1..], r.guard)
              && SameParties(g, r.guard)
    requires Entitled(start, g, v, OrderPost, url)
    requires !g.failed
    ensures Budget(start, r.guard)
  {
    hide Tail, Distinct, Target;
    assert r.guard.used == {url};
  }

  lemma BudgetOfOthers(start: Guard, g: Guard, v: View, kind: Kind, url: Url, r: Result)
    requires |r.log| > 0 && Budget(start, g) && Succeeds(g, kind, url, r.log[1..], r.guard)
    requires Entitled(start, g, v, kind, url) && kind in {AuthorizationPost, ChallengePost} && !g.failed
    ensures Budget(start, r.guard)
  {
    hide Distinct, Target;
    assert |g.used + {url}| == |g.used| + 1;
  }

  lemma BudgetHolds(start: Guard, g: Guard, v: View, kind: Kind, q: Request, r: Result)
    requires Budget(start, g) && !g.failed && Sending(g, kind, q, r) && SameParties(g, r.guard)
    requires Entitled(start, g, v, kind, q.url)
    ensures Budget(start, r.guard)
  {
    TailViews(Creates(g, kind), kind, r.log[1..]);
    if !r.guard.failed {
      hide Budget, Succeeds;
      if kind in {DirectoryRead, NonceRead} {
        assert kind == NonceRead ==> Succeeds(g, kind, q.url, r.log[1..], r.guard);
        BudgetOfReads(start, g, v, kind, q.url, r);
      } else if kind == OrderPost {
        BudgetOfOrder(start, g, v, q.url, r);
      } else {
        BudgetOfOthers(start, g, v, kind, q.url, r);
      }
    }
  }

  lemma TurnConforms(start: Guard, g: Guard, log: seq<Event>, t: Turn)
    requires Conforms(start, g, log)
    ensures Conforms(start, Step(g, t).guard, log + Step(g, t).log)
  {
    hide Conforms, Step;
    if Step(g, t).log == [] { RefusedTurn(start, g, log, t); } else { SentTurn(start, g, log, t); }
  }

  lemma LendTurn(start: Guard, g: Guard, log: seq<Event>, challenges: map<Url, string>)
    requires Conforms(start, g, log) && MayLend(g, challenges)
    ensures Conforms(start, g.(challenges := challenges), log + [Lent(challenges.Keys)])
  {
    hide Legal, Observe, Distinct;
    assert g.challenges.Keys == {};
    assert |challenges.Keys| == |challenges|;
    Extend(log, Lent(challenges.Keys), RulesOf(start));
  }

  /** Every conversation, with any client, any server and any interruption, follows the rules. */
  lemma {:induction false} EveryConversationIsLegal(account: string, order: Option<Url>, names: seq<string>,
      validation: bool, actions: seq<Action>)
    ensures var start := Fresh(account, order, names, validation);
            Conforms(start, Run(start, actions).0, Run(start, actions).1)
  {
    hide Conforms, Step, MayLend;
    var start := Fresh(account, order, names, validation);
    if actions == [] {
      StartConforms(start);
    } else {
      EveryConversationIsLegal(account, order, names, validation, actions[..|actions| - 1]);
      var (g, log) := Run(start, actions[..|actions| - 1]);
      match actions[|actions| - 1]
      case RoundTrip(t) =>
        TurnConforms(start, g, log, t);
      case Lend(challenges) =>
        if MayLend(g, challenges) { LendTurn(start, g, log, challenges); }
        assert log + [] == log;
    }
  }

  lemma StartConforms(start: Guard)
    requires start == Fresh(start.account, start.order, start.names, start.validation)
    ensures Conforms(start, start, [])
  {
    assert Observe([]) == NOTHING;
    assert start.challenges.Keys == {};
  }

  // ---- What no conversation can do ----

  /** For any client, any server and any interruption:
      requests stay within the limit; no address is posted to twice; every nonce spent was fetched
      since the previous post; the order is asked for once, where the caller said; a new order's
      address is durable before anything of its answer is read, and is saved once; challenges are
      posted to only during validation. */
  lemma ConversationsAreSafe(account: string, order: Option<Url>, names: seq<string>, validation: bool,
      actions: seq<Action>)
    ensures var start := Fresh(account, order, names, validation);
            var log := Run(start, actions).1;
            && Sends(log) <= (if validation then 35 else 19)
            && forall k | 0 <= k < |log| :: KeepsItsPromise(log, RulesOf(start), k)
  {
    hide Run, Budget, Tracks, Legal, Observe;
    var start := Fresh(account, order, names, validation);
    var log := Run(start, actions).1;
    var rules := RulesOf(start);
    EveryConversationIsLegal(account, order, names, validation, actions);
    Happened(log, rules);
    forall k | 0 <= k < |log| ensures KeepsItsPromise(log, rules, k) {
      PromisesAreKept(log, rules, k);
    }
  }

  /** The first refusal is the last word: nothing is sent, fetched or saved after it. */
  lemma {:induction false} SilenceAfterRefusal(start: Guard, actions: seq<Action>, more: seq<Action>)
    requires Run(start, actions).0.failed
    ensures Run(start, actions + more).0.failed && Run(start, actions + more).1 == Run(start, actions).1
  {
    if more == [] {
      assert actions + more == actions;
    } else {
      SilenceAfterRefusal(start, actions, more[..|more| - 1]);
      assert (actions + more)[..|actions + more| - 1] == actions + more[..|more| - 1];
    }
  }

  // ---- The limits leave room for every honest conversation ----

  // The addresses a conversation may post to.
  function Places(start: Guard, g: Guard): set<Url> {
    {Target(start)} + Set(g.authz) + g.challenges.Keys
  }

  lemma PlacesAreFew(start: Guard, g: Guard)
    requires Budget(start, g) && !g.failed && g.names == start.names
    ensures g.used <= Places(start, g)
    ensures |Places(start, g)| <= 1 + |g.names| + (if g.validation then |g.names| else 0)
  {
    hide Distinct;
    SetIsSmall(g.authz);
    assert |g.challenges.Keys| == |g.challenges|;
  }

  /** With at most eight names, a well-formed request is never refused for the limit: not a post, and
      not a nonce fetch while some address is still to be posted to. A conversation that has posted
      everywhere costs exactly one directory read and a nonce and a post for each address:
      3 + 2n requests, or 3 + 4n with every challenge accepted. */
  lemma LimitNeverStopsAnHonestClient(account: string, order: Option<Url>, names: seq<string>, validation: bool,
                                      actions: seq<Action>, r: Request)
    requires |names| <= 8
    requires var start := Fresh(account, order, names, validation);
             var g := Run(start, actions).0;
             !g.failed && Classify(g, r).Some? && (r.verb == Head ==> g.used != Places(start, g))
    ensures var start := Fresh(account, order, names, validation);
            var g := Run(start, actions).0;
            && g.requests < Limit(RulesOf(g))
            && g.requests == (if g.directory then 1 else 0) + 2 * |g.used| + (if g.nonce != "" then 1 else 0)
            && |g.used| <= 1 + |names| + (if validation then |names| else 0)
  {
    hide Run, Legal, Observe, ValidJws, Distinct;
    var start := Fresh(account, order, names, validation);
    var g := Run(start, actions).0;
    EveryConversationIsLegal(account, order, names, validation, actions);
    PlacesAreFew(start, g);
    SubsetIsSmaller(g.used, Places(start, g));
    if r.verb == Post {
      assert r.url in Places(start, g) - g.used by { OpenPlaces(start, g, r, Observe(Run(start, actions).1)); }
    }
  }

  lemma OpenPlaces(start: Guard, g: Guard, r: Request, v: View)
    requires Tracks(start, g, v) && Budget(start, g) && !g.failed && Classify(g, r).Some? && r.verb == Post
    ensures r.url in Places(start, g) && r.url !in g.used
  {
    hide ValidJws, Distinct;
  }
}
