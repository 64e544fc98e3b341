/**
 The client loops over an order's authorizations (dnsOrder in internal/acmestaging/order.go,
 dnsValidation in validation.go, ValidationState in internal/acmeorder/validation.go): one slot a
 requested name, every slot filled, and challenge authority only once the whole set agrees.

 The transport hands the client as many authorizations as there are names; an answer is None when
 reading it failed or was no longer allowed.
 */
module AcmeClients {
  import opened Common
  import opened AcmeWire

  // Instructions for one name; the record's label follows from the domain.
  datatype Txt = Txt(domain: string, required: bool, value: string)

  const UNFILLED := Txt("", false, "")

  datatype Instructions = Instructions(expires: Stamp, records: seq<Txt>)

  function Earlier(a: Stamp, b: Stamp): Stamp { if b < a then b else a }

  // ---- Names and slots ----

  // One authorization a requested name, none twice.
  predicate Covers(names: seq<string>, answers: seq<Content>) {
    && |answers| == |names|
    && (forall i | 0 <= i < |answers| :: answers[i].Authorization? && answers[i].name in names)
    && (forall i, j | 0 <= i < j < |answers| :: answers[i].name != answers[j].name)
  }

  function NamesOf(answers: seq<Content>, n: nat): set<string>
    requires n <= |answers| && forall i | 0 <= i < n :: answers[i].Authorization?
  {
    if n == 0 then {} else NamesOf(answers, n - 1) + {answers[n - 1].name}
  }

  lemma {:induction false} Named(answers: seq<Content>, n: nat, name: string)
    requires n <= |answers| && forall i | 0 <= i < n :: answers[i].Authorization?
    ensures name in NamesOf(answers, n) <==> exists i | 0 <= i < n :: answers[i].name == name
  {
    if n > 0 { Named(answers, n - 1, name); }
  }

  lemma {:induction false} DistinctNamesCount(names: seq<string>)
    requires Distinct(names)
    ensures |set n | n in names| == |names|
  {
    if names != [] {
      DistinctNamesCount(names[1..]);
      assert (set n | n in names) == {names[0]} + (set n | n in names[1..]);
    }
  }

  lemma {:induction false} NamesOfCount(answers: seq<Content>, n: nat)
    requires n <= |answers| && forall i | 0 <= i < n :: answers[i].Authorization?
    requires forall i, j | 0 <= i < j < n :: answers[i].name != answers[j].name
    ensures |NamesOf(answers, n)| == n
  {
    if n > 0 {
      NamesOfCount(answers, n - 1);
      Named(answers, n - 1, answers[n - 1].name);
      CountGrows(NamesOf(answers, n - 1), answers[n - 1].name);
    }
  }

  lemma CountGrows(s: set<string>, name: string)
    requires name !in s
    ensures |s + {name}| == |s| + 1
  {
  }

  /** By counting, a covering set answers every requested name. */
  lemma EveryNameIsAnswered(names: seq<string>, answers: seq<Content>, name: string)
    requires Distinct(names) && Covers(names, answers) && name in names
    ensures exists i | 0 <= i < |answers| :: answers[i].name == name
  {
    var all, seen := (set n | n in names), NamesOf(answers, |answers|);
    DistinctNamesCount(names);
    NamesOfCount(answers, |answers|);
    forall one | one in seen ensures one in all { Named(answers, |answers|, one); }
    assert all == seen + (all - seen);
    assert name in seen;
    Named(answers, |answers|, name);
  }

  method IndexOf(names: seq<string>, name: string) returns (k: int)
    ensures name in names ==> 0 <= k < |names| && names[k] == name
    ensures name !in names ==> k == -1
  {
    for i := 0 to |names|
      invariant forall j | 0 <= j < i :: names[j] != name
    {
      if names[i] == name { return i; }
    }
    k := -1;
  }

  function Deadline(start: Stamp, answers: seq<Content>): Stamp {
    if answers == [] || !answers[|answers| - 1].Authorization? then start
    else Earlier(Deadline(start, answers[..|answers| - 1]), answers[|answers| - 1].expires)
  }

  /** The deadline is not later than the order's, nor than any authorization's. */
  lemma {:induction false} DeadlineIsEarliest(start: Stamp, answers: seq<Content>)
    requires forall i | 0 <= i < |answers| :: answers[i].Authorization?
    ensures Deadline(start, answers) <= start
              && forall i | 0 <= i < |answers| :: Deadline(start, answers) <= answers[i].expires
    ensures Deadline(start, answers) == start
              || exists i | 0 <= i < |answers| :: Deadline(start, answers) == answers[i].expires
  {
    if answers != [] {
      var front := answers[..|answers| - 1];
      DeadlineIsEarliest(start, front);
      if Deadline(start, answers) == Deadline(start, front) && Deadline(start, front) != start {
        var i :| 0 <= i < |front| && Deadline(start, front) == front[i].expires;
        assert answers[i] == front[i];
      }
    }
  }

  // ---- Preparing instructions ----

  // The one pending dns-01 challenge of a pending authorization.
  function PendingChallenge(a: Content): Option<Challenge> {
    if !a.Authorization? then None else
    var dns := DnsChallenges(a.challenges);
    if |dns| == 1 && dns[0].status == Pending && ValidToken(dns[0].token) && dns[0].url.ChallengeUrl? then Some(dns[0])
        else None
  }

  predicate Usable(a: Content, now: Stamp) {
    && a.Authorization? && a.expires > now && a.status in {Pending, Valid}
    && (a.status == Pending ==> PendingChallenge(a).Some?)
  }

  function RecordOf(a: Content, digest: string -> string): Txt {
    if !a.Authorization? then UNFILLED
    else if a.status == Pending && PendingChallenge(a).Some?
    then Txt(a.name, true, digest(PendingChallenge(a).value.token)) else Txt(a.name, false, "")
  }

  /** What an authorization has to show to be prepared for, and what is then to be published for its name:
      nothing while it is valid, and while it is pending the digest of its one DNS challenge's token. */
  lemma PreparationsAreExact(a: Content, now: Stamp, digest: string -> string)
    ensures Usable(a, now) <==>
              && a.Authorization? && now < a.expires
              && (a.status == Valid
                  || (a.status == Pending && AtMostOneDns(a.challenges)
                      && exists c | c in a.challenges ::
                           c.dns && c.status == Pending && ValidToken(c.token) && c.url.ChallengeUrl?))
    ensures Usable(a, now) ==>
              && RecordOf(a, digest).domain == a.name && (RecordOf(a, digest).required <==> a.status == Pending)
              && (a.status == Pending ==>
                    forall c | c in a.challenges && c.dns :: RecordOf(a, digest).value == digest(c.token))
              && (a.status != Pending ==> RecordOf(a, digest).value == "")
  {
    hide ValidToken, DnsChallenges;
    if a.Authorization? {
      DnsAreThose(a.challenges);
      DnsAreFew(a.challenges);
      var dns := DnsChallenges(a.challenges);
      assert |dns| == 1 ==> dns[0] in dns && forall c | c in dns :: c == dns[0];
    }
  }

  // The slot of each name holds what the authorization naming it yields.
  predicate Filled<T(==)>(names: seq<string>, answers: seq<Content>, slots: seq<T>, entry: Content -> T) {
    && |slots| == |names|
    && forall k | 0 <= k < |names| ::
         exists i | 0 <= i < |answers| :: answers[i].Authorization? && answers[i].name == names[k]
             && slots[k] == entry(answers[i])
  }

  // A covering set of answers, all of them read and each usable when it was looked at.
  predicate Preparable(names: seq<string>, answers: seq<Option<Content>>, clock: seq<Stamp>)
    requires |clock| == |answers|
  {
    && (forall i | 0 <= i < |answers| :: answers[i].Some? && Usable(answers[i].value, clock[i]))
    && Covers(names, Contents(answers))
  }

  function Contents(answers: seq<Option<Content>>): (r: seq<Content>)
    ensures |r| == |answers| && forall i | 0 <= i < |r| :: r[i] == if answers[i].Some? then answers[i].value
              else Garbage
  {
    seq(|answers|, i requires 0 <= i < |answers| => if answers[i].Some? then answers[i].value else Garbage)
  }

  // The first n answers are in their slots.
  predicate Placed<T(==)>(names: seq<string>, answers: seq<Content>, n: nat, seen: set<string>, slots: seq<T>,
      entry: Content -> T) {
    && n <= |answers| && |slots| == |names|
    && (forall i | 0 <= i < n :: answers[i].Authorization? && answers[i].name in names)
    && (forall i, j | 0 <= i < j < n :: answers[i].name != answers[j].name)
    && seen == NamesOf(answers, n)
    && (forall i, k | 0 <= i < n && 0 <= k < |names| && answers[i].name == names[k] :: slots[k] == entry(answers[i]))
  }

  lemma Place<T>(names: seq<string>, answers: seq<Content>, n: nat, seen: set<string>, slots: seq<T>,
      entry: Content -> T, k: nat)
    requires Placed(names, answers, n, seen, slots, entry) && Distinct(names)
    requires n < |answers| && answers[n].Authorization? && k < |names| && names[k] == answers[n].name
              && answers[n].name !in seen
    ensures Placed(names, answers, n + 1, seen + {answers[n].name}, slots[k := entry(answers[n])], entry)
  {
    Named(answers, n, answers[n].name);
  }

  lemma PlacedFills<T>(names: seq<string>, answers: seq<Content>, seen: set<string>, slots: seq<T>, entry: Content -> T)
    requires Placed(names, answers, |answers|, seen, slots, entry) && Distinct(names) && |answers| == |names|
    ensures Covers(names, answers) && Filled(names, answers, slots, entry)
  {
    hide Distinct;
    forall k | 0 <= k < |names|
      ensures exists i | 0 <= i < |answers| :: answers[i].Authorization? && answers[i].name == names[k]
                && slots[k] == entry(answers[i])
    {
      EveryNameIsAnswered(names, answers, names[k]);
    }
  }

  lemma Misplaced<T>(names: seq<string>, answers: seq<Content>, n: nat, seen: set<string>, slots: seq<T>,
      entry: Content -> T)
    requires Placed(names, answers, n, seen, slots, entry) && n < |answers| && answers[n].Authorization?
    requires answers[n].name !in names || answers[n].name in seen
    ensures !Covers(names, answers)
  {
    Named(answers, n, answers[n].name);
  }

  lemma NothingPlaced<T>(names: seq<string>, answers: seq<Content>, slots: seq<T>, entry: Content -> T, start: Stamp)
    requires |slots| == |names|
    ensures Placed(names, answers, 0, {}, slots, entry) && Deadline(start, answers[..0]) == start
  {
  }

  /** dnsOrder's loop: instructions exactly when every requested name has one usable authorization,
      each name's slot holding that authorization's record, due by the earliest deadline. */
  method DnsOrder(names: seq<string>, expires: Stamp, answers: seq<Option<Content>>, clock: seq<Stamp>,
      digest: string -> string)
    returns (info: Option<Instructions>)
    requires |answers| == |names| == |clock| && Distinct(names)
    ensures info.Some? <==> Preparable(names, answers, clock)
    ensures info.Some? ==>
              && Filled(names, Contents(answers), info.value.records, a => RecordOf(a, digest))
              && info.value.expires == Deadline(expires, Contents(answers))
  {
    hide Usable, RecordOf, Deadline, Placed, Covers, Distinct, Filled;
    ghost var contents := Contents(answers);
    var records := seq(|names|, _ => UNFILLED);
    var seen, due := {}, expires;
    ghost var entry := a => RecordOf(a, digest);
    NothingPlaced(names, contents, records, entry, expires);
    for i := 0 to |answers|
      invariant forall j | 0 <= j < i :: answers[j].Some? && Usable(answers[j].value, clock[j])
      invariant Placed(names, contents, i, seen, records, entry) && |records| == |names|
      invariant due == Deadline(expires, contents[..i])
    {
      if answers[i].None? || !Usable(answers[i].value, clock[i]) { return None; }
      var a := answers[i].value;
      UsableMeansAuthorization(a, clock[i]);
      var index := IndexOf(names, a.name);
      if index < 0 || a.name in seen {
        Misplaced(names, contents, i, seen, records, entry);
        return None;
      }
      Place(names, contents, i, seen, records, entry, index);
      DeadlineStep(expires, contents, i);
      seen, records, due := seen + {a.name}, records[index := RecordOf(a, digest)], Earlier(due, a.expires);
    }
    assert contents[..|answers|] == contents;
    PlacedFills(names, contents, seen, records, entry);
    info := Some(Instructions(due, records));
  }

  lemma UsableMeansAuthorization(a: Content, now: Stamp)
    requires Usable(a, now)
    ensures a.Authorization?
  {
  }

  lemma DeadlineStep(start: Stamp, answers: seq<Content>, i: nat)
    requires i < |answers| && answers[i].Authorization?
    ensures Deadline(start, answers[..i + 1]) == Earlier(Deadline(start, answers[..i]), answers[i].expires)
  {
    assert answers[..i + 1][..i] == answers[..i];
  }

  // ---- Validating ----

  datatype Verdict = Waiting | Failed | Verified

  predicate Refutes(s: Status) { s in {Invalid, Status.Expired, Revoked, Deactivated} }

  predicate Known(s: Status) { s in {Pending, Valid} || Refutes(s) }

  /** ValidationState: failed as soon as anything failed, verified only when the order is ready and every
      authorization valid; a ready order with a pending authorization is no verdict. */
  method ValidationState(order: Status, statuses: seq<Status>) returns (verdict: Option<Verdict>)
    ensures verdict.Some? ==> order in {Pending, Ready, Invalid} && forall s | s in statuses :: Known(s)
    ensures verdict == Some(Failed) <==>
              && order in {Pending, Ready, Invalid} && (forall s | s in statuses :: Known(s))
              && (order == Invalid || exists s | s in statuses :: Refutes(s))
    ensures verdict == Some(Verified) <==> order == Ready && forall s | s in statuses :: s == Valid
    ensures verdict == Some(Waiting) <==> order == Pending && forall s | s in statuses :: s in {Pending, Valid}
  {
    if order !in {Pending, Ready, Invalid} { return None; }
    var allValid, failed := true, order == Invalid;
    for i := 0 to |statuses|
      invariant forall s | s in statuses[..i] :: Known(s)
      invariant allValid <==> forall j | 0 <= j < i :: statuses[j] == Valid
      invariant failed <==> order == Invalid || exists s | s in statuses[..i] :: Refutes(s)
    {
      assert statuses[..i + 1] == statuses[..i] + [statuses[i]];
      assert statuses[i] in statuses[..i + 1];
      if statuses[i] == Pending {
        allValid := false;
      } else if Refutes(statuses[i]) {
        allValid, failed := false, true;
      } else if statuses[i] != Valid {
        assert statuses[i] in statuses;
        return None;
      }
    }
    assert statuses[..|statuses|] == statuses;
    if forall s | s in statuses :: s == Valid {
      forall j | 0 <= j < |statuses| ensures statuses[j] == Valid { assert statuses[j] in statuses; }
    }
    if failed { return Some(Failed); }
    if allValid && order == Ready { return Some(Verified); }
    if order == Ready { return None; }
    verdict := Some(Waiting);
  }

  // The verdict an order and the statuses of its authorizations call for.
  function VerdictOn(order: Status, statuses: set<Status>): Option<Verdict> {
    if order !in {Pending, Ready, Invalid} || (exists s | s in statuses :: !Known(s)) then None
    else if order == Invalid || (exists s | s in statuses :: Refutes(s)) then Some(Failed)
    else if order == Pending then Some(Waiting)
    else if forall s | s in statuses :: s == Valid then Some(Verified) else None
  }

  function SetOf(statuses: seq<Status>): set<Status> { set s | s in statuses }

  function StatusesOf(answers: seq<Content>): set<Status> { set i | 0 <= i < |answers| :: StatusOf(answers[i]) }

  lemma VerdictIsOnSet(order: Status, statuses: seq<Status>, verdict: Option<Verdict>)
    requires verdict == Some(Failed) <==>
               && order in {Pending, Ready, Invalid} && (forall s | s in statuses :: Known(s))
               && (order == Invalid || exists s | s in statuses :: Refutes(s))
    requires verdict == Some(Verified) <==> order == Ready && forall s | s in statuses :: s == Valid
    requires verdict == Some(Waiting) <==> order == Pending && forall s | s in statuses :: s in {Pending, Valid}
    ensures verdict == VerdictOn(order, SetOf(statuses))
  {
    var all := SetOf(statuses);
    assert forall s :: s in all <==> s in statuses;
    assert (exists s | s in all :: !Known(s)) <==> !forall s | s in statuses :: Known(s);
    assert (exists s | s in all :: Refutes(s)) <==> exists s | s in statuses :: Refutes(s);
    assert (forall s | s in all :: s == Valid) <==> forall s | s in statuses :: s == Valid;
    assert forall s | Known(s) && !Refutes(s) :: s in {Pending, Valid};
    match verdict
    case Some(Waiting) =>
      forall s | s in statuses ensures Known(s) && !Refutes(s) { assert s in {Pending, Valid}; }
    case Some(Verified) =>
      forall s | s in statuses ensures Known(s) && !Refutes(s) { assert s == Valid; }
    case Some(Failed) =>
    case None =>
  }

  datatype Validation = Validation(expires: Stamp, statuses: seq<Status>, verdict: Verdict)

  // A pending authorization whose one challenge proves the value that was published for its name.
  predicate Proves(a: Content, names: seq<string>, saved: seq<Txt>, digest: string -> string)
    requires |saved| == |names|
  {
    && a.Authorization? && |a.challenges| == 1
    && forall k | 0 <= k < |names| && names[k] == a.name ::
         saved[k].required && digest(a.challenges[0].token) == saved[k].value
  }

  predicate PendsAt(a: Content) { a.Authorization? && a.status == Pending }

  // A complete set of authorizations whose pending ones each prove their name, no challenge twice.
  predicate Consistent(names: seq<string>, saved: seq<Txt>, answers: seq<Content>, digest: string -> string)
    requires |saved| == |names|
  {
    && Covers(names, answers)
    && (forall i | 0 <= i < |answers| && PendsAt(answers[i]) :: Proves(answers[i], names, saved, digest))
    && (forall i, j | 0 <= i < j < |answers| && PendsAt(answers[i]) && PendsAt(answers[j])
                      && |answers[i].challenges| == 1 && |answers[j].challenges| == 1 ::
          answers[i].challenges[0].url != answers[j].challenges[0].url)
  }

  // The challenges of the pending authorizations, each with its token.
  function Destinations(answers: seq<Content>, n: nat): map<Url, string>
    requires n <= |answers|
  {
    if n == 0 then map[]
    else if answers[n - 1].Authorization? && answers[n - 1].status == Pending && |answers[n - 1].challenges| == 1 then
      Destinations(answers, n - 1)[answers[n - 1].challenges[0].url := answers[n - 1].challenges[0].token]
    else Destinations(answers, n - 1)
  }

  // Those still to be accepted.
  function ToAccept(answers: seq<Content>, n: nat): seq<Url>
    requires n <= |answers|
  {
    if n == 0 then []
    else if answers[n - 1].Authorization? && answers[n - 1].status == Pending && |answers[n - 1].challenges| == 1
            && answers[n - 1].challenges[0].status == Pending then
      ToAccept(answers, n - 1) + [answers[n - 1].challenges[0].url]
    else ToAccept(answers, n - 1)
  }

  lemma {:induction false} DestinationsAreFew(answers: seq<Content>, n: nat)
    requires n <= |answers|
    ensures |Destinations(answers, n)| <= n
  {
    if n > 0 {
      DestinationsAreFew(answers, n - 1);
      var m, more := Destinations(answers, n - 1), Destinations(answers, n);
      assert |m.Keys| == |m| && |more.Keys| == |more|;
      if more != m {
        assert more.Keys == m.Keys + {answers[n - 1].challenges[0].url};
      }
    }
  }

  lemma {:induction false} AcceptedAreLent(answers: seq<Content>, n: nat)
    requires n <= |answers|
    ensures forall u | u in ToAccept(answers, n) :: u in Destinations(answers, n)
  {
    if n > 0 { AcceptedAreLent(answers, n - 1); }
  }

  // The i-th authorization is pending and its one challenge is the destination u.
  predicate Pends(answers: seq<Content>, i: nat, u: Url, token: string)
    requires i < |answers|
  {
    && answers[i].Authorization? && answers[i].status == Pending && |answers[i].challenges| == 1
    && answers[i].challenges[0].url == u && token == answers[i].challenges[0].token
  }

  lemma {:induction false} DestinationPends(answers: seq<Content>, n: nat, u: Url)
    requires n <= |answers| && u in Destinations(answers, n)
    ensures exists i | 0 <= i < n :: Pends(answers, i, u, Destinations(answers, n)[u])
  {
    if u in Destinations(answers, n - 1) && Destinations(answers, n - 1)[u] == Destinations(answers, n)[u] {
      DestinationPends(answers, n - 1, u);
    } else {
      assert Pends(answers, n - 1, u, Destinations(answers, n)[u]);
    }
  }

  lemma {:induction false} PendingAreDestinations(answers: seq<Content>, n: nat, i: nat)
    requires i < n <= |answers| && PendsAt(answers[i]) && |answers[i].challenges| == 1
    ensures answers[i].challenges[0].url in Destinations(answers, n)
    ensures answers[i].challenges[0].status == Pending ==> answers[i].challenges[0].url in ToAccept(answers, n)
  {
    if i < n - 1 { PendingAreDestinations(answers, n - 1, i); }
  }

  lemma {:induction false} AcceptedArePending(answers: seq<Content>, n: nat, u: Url)
    requires n <= |answers| && u in ToAccept(answers, n)
    ensures exists i | 0 <= i < n :: AwaitsAcceptance(answers[i], u)
  {
    if u in ToAccept(answers, n - 1) {
      AcceptedArePending(answers, n - 1, u);
    } else {
      assert AwaitsAcceptance(answers[n - 1], u);
    }
  }

  // A pending authorization whose one challenge is at this address and not yet taken up.
  predicate AwaitsAcceptance(a: Content, u: Url) {
    && a.Authorization? && a.status == Pending && |a.challenges| == 1
    && a.challenges[0].url == u && a.challenges[0].status == Pending
  }

  /** Authority is lent for exactly the challenges of pending authorizations, no more of them than names, each
      with its own token, and exactly those of them that nobody has taken up are to be accepted. */
  lemma DestinationsBelongToPending(answers: seq<Content>, n: nat)
    requires n <= |answers|
    ensures |Destinations(answers, n)| <= n
    ensures forall u | u in Destinations(answers, n) :: exists i | 0 <= i < n ::
              Pends(answers, i, u, Destinations(answers, n)[u])
    ensures forall i | 0 <= i < n && PendsAt(answers[i]) && |answers[i].challenges| == 1 ::
              answers[i].challenges[0].url in Destinations(answers, n)
    ensures forall u :: u in ToAccept(answers, n) <==> exists i | 0 <= i < n :: AwaitsAcceptance(answers[i], u)
    ensures forall u | u in ToAccept(answers, n) :: u in Destinations(answers, n)
  {
    hide Destinations, ToAccept;
    DestinationsAreFew(answers, n);
    AcceptedAreLent(answers, n);
    forall u | u in Destinations(answers, n)
      ensures exists i | 0 <= i < n :: Pends(answers, i, u, Destinations(answers, n)[u])
    {
      DestinationPends(answers, n, u);
    }
    forall i | 0 <= i < n && PendsAt(answers[i]) && |answers[i].challenges| == 1
      ensures answers[i].challenges[0].url in Destinations(answers, n)
      ensures answers[i].challenges[0].status == Pending ==> answers[i].challenges[0].url in ToAccept(answers, n)
    {
      PendingAreDestinations(answers, n, i);
    }
    forall u | u in ToAccept(answers, n) ensures exists i | 0 <= i < n :: AwaitsAcceptance(answers[i], u) {
      AcceptedArePending(answers, n, u);
    }
  }

  function StatusOf(a: Content): Status { if a.Authorization? then a.status else OtherStatus }

  // The challenges taken up in order: all of them, or those up to the first that was not accepted.
  predicate TakenUp(urls: seq<Url>, accepts: Url -> bool, taken: seq<Url>) {
    && taken <= urls
    && (forall k | 0 <= k < |taken| - 1 :: accepts(taken[k]))
    && (taken == urls || (taken != [] && !accepts(taken[|taken| - 1])))
  }

  // The loop over the challenges still to be accepted.
  method AcceptAll(urls: seq<Url>, accepts: Url -> bool) returns (ok: bool, taken: seq<Url>)
    ensures ok <==> forall u | u in urls :: accepts(u)
    ensures TakenUp(urls, accepts, taken)
  {
    ok, taken := true, [];
    for k := 0 to |urls|
      invariant taken == urls[..k] && forall u | u in taken :: accepts(u)
    {
      taken := taken + [urls[k]];
      if !accepts(urls[k]) {
        assert urls[k] in urls;
        return false, taken;
      }
    }
  }

  // The verdict the answers call for, while the deadline is ahead.
  function Judged(names: seq<string>, saved: seq<Txt>, expires: Stamp, order: Status, answers: seq<Content>,
                  now: Stamp, digest: string -> string): Option<Verdict>
    requires |saved| == |names|
  {
    if Consistent(names, saved, answers, digest) && Deadline(expires, answers) > now
    then VerdictOn(order, StatusesOf(answers)) else None
  }

  /** dnsValidation's loops and verdict: a verdict if and only if every answer was read, the set is
      complete and consistent, the statuses call for one, the deadline is ahead and, for a waiting verdict
      that is not a refresh, every pending challenge is accepted; each name's slot holds its
      authorization's status; challenge authority only for such a waiting verdict, and then for exactly
      the pending authorizations' challenges, which are taken up in order until one is not accepted. */
  method DnsValidation(names: seq<string>, saved: seq<Txt>, expires: Stamp, order: Status, refresh: bool,
                       answers: seq<Option<Content>>, permitted: bool, now: Stamp, digest: string -> string,
                       accepts: Url -> bool)
    returns (result: Option<Validation>, lent: map<Url, string>, taken: seq<Url>)
    requires |answers| == |names| == |saved| && Distinct(names)
    ensures var verdict := Judged(names, saved, expires, order, Contents(answers), now, digest);
            var lending := permitted && verdict == Some(Waiting) && !refresh;
            var pending := ToAccept(Contents(answers), |answers|);
            && (result.Some? <==> permitted && verdict.Some? && (lending ==> forall u | u in pending :: accepts(u)))
            && (result.Some? ==>
                  && Filled(names, Contents(answers), result.value.statuses, StatusOf)
                  && result.value.expires == Deadline(expires, Contents(answers))
                  && verdict == Some(result.value.verdict))
            && lent == (if lending then Destinations(Contents(answers), |answers|) else map[])
            && (if lending then TakenUp(pending, accepts, taken) else taken == [])
  {
    hide Placed, Covers, Distinct, Filled, Proves, Deadline, Destinations, ToAccept, VerdictOn, StatusesOf, Consistent;
    hide TakenUp;
    ghost var contents := Contents(answers);
    result, lent, taken := None, map[], [];
    var statuses := seq(|names|, _ => OtherStatus);
    var seen, due, destinations, pending := {}, expires, map[], [];
    NothingPlaced(names, contents, statuses, StatusOf, expires);
    NothingGathered(contents);
    for i := 0 to |answers|
      invariant forall j | 0 <= j < i :: answers[j].Some? && contents[j].Authorization?
      invariant Placed(names, contents, i, seen, statuses, StatusOf) && |statuses| == |names|
      invariant due == Deadline(expires, contents[..i])
      invariant forall j | 0 <= j < i && PendsAt(contents[j]) :: Proves(contents[j], names, saved, digest)
      invariant destinations == Destinations(contents, i) && pending == ToAccept(contents, i)
      invariant Apart(contents, i)
    {
      if answers[i].None? || !answers[i].value.Authorization? {
        Unreadable(names, saved, contents, digest, i);
        return;
      }
      var a := answers[i].value;
      var index := IndexOf(names, a.name);
      if index < 0 || a.name in seen {
        Misplaced(names, contents, i, seen, statuses, StatusOf);
        ConsistentCovers(names, saved, contents, digest);
        return;
      }
      if a.status == Pending && (|a.challenges| != 1 || !saved[index].required
          || digest(a.challenges[0].token) != saved[index].value) {
        Unproven(names, saved, contents, digest, i, index);
        return;
      }
      if a.status == Pending && a.challenges[0].url in destinations {
        Repeated(names, saved, contents, digest, i);
        return;
      }
      Place(names, contents, i, seen, statuses, StatusOf, index);
      DeadlineStep(expires, contents, i);
      seen, statuses, due := seen + {a.name}, statuses[index := a.status], Earlier(due, a.expires);
      GatherStep(contents, i);
      ApartGrows(contents, i);
      if a.status == Pending {
        var c := a.challenges[0];
        ProvesAtIndex(a, names, saved, digest, index);
        destinations := destinations[c.url := c.token];
        if c.status == Pending { pending := pending + [c.url]; }
      }
    }
    assert contents[..|answers|] == contents;
    PlacedFills(names, contents, seen, statuses, StatusOf);
    AllApart(names, saved, contents, digest);
    SlotsAreAnswers(names, contents, seen, statuses);
    var verdict := ValidationState(order, statuses);
    VerdictIsOnSet(order, statuses, verdict);
    if !permitted || verdict.None? || due <= now { return; }
    if !refresh && verdict.value == Waiting {
      lent := destinations;
      var ok;
      ok, taken := AcceptAll(pending, accepts);
      if !ok { return; }
    }
    result := Some(Validation(due, statuses, verdict.value));
  }

  // The first n pending challenges differ, and are exactly the destinations.
  predicate Apart(answers: seq<Content>, n: nat) {
    && n <= |answers|
    && (forall i | 0 <= i < n && PendsAt(answers[i]) ::
          |answers[i].challenges| == 1 && answers[i].challenges[0].url in Destinations(answers, n))
    && (forall i, j | 0 <= i < j < n && PendsAt(answers[i]) && PendsAt(answers[j])
                      && |answers[i].challenges| == 1 && |answers[j].challenges| == 1 ::
          answers[i].challenges[0].url != answers[j].challenges[0].url)
  }

  lemma ApartGrows(answers: seq<Content>, n: nat)
    requires Apart(answers, n) && n < |answers| && answers[n].Authorization?
    requires answers[n].status == Pending ==>
               |answers[n].challenges| == 1 && answers[n].challenges[0].url !in Destinations(answers, n)
    ensures Apart(answers, n + 1)
  {
    GatherStep(answers, n);
  }

  lemma AllApart(names: seq<string>, saved: seq<Txt>, answers: seq<Content>, digest: string -> string)
    requires |saved| == |names| && Covers(names, answers) && Apart(answers, |answers|)
    requires forall i | 0 <= i < |answers| && PendsAt(answers[i]) :: Proves(answers[i], names, saved, digest)
    ensures Consistent(names, saved, answers, digest)
  {
    hide Covers, Proves, Destinations;
  }

  lemma ConsistentCovers(names: seq<string>, saved: seq<Txt>, answers: seq<Content>, digest: string -> string)
    requires |saved| == |names|
    ensures Consistent(names, saved, answers, digest) ==> Covers(names, answers)
  {
    hide Covers, Proves;
  }

  lemma Unreadable(names: seq<string>, saved: seq<Txt>, answers: seq<Content>, digest: string -> string, i: nat)
    requires |saved| == |names| && i < |answers| && !answers[i].Authorization?
    ensures !Consistent(names, saved, answers, digest)
  {
    hide Proves;
  }

  lemma Unproven(names: seq<string>, saved: seq<Txt>, answers: seq<Content>, digest: string -> string, i: nat,
      index: nat)
    requires |saved| == |names| && i < |answers| && PendsAt(answers[i]) && index < |names|
              && names[index] == answers[i].name
    requires |answers[i].challenges| != 1 || !saved[index].required
              || digest(answers[i].challenges[0].token) != saved[index].value
    ensures !Consistent(names, saved, answers, digest)
  {
    hide Covers;
    assert !Proves(answers[i], names, saved, digest);
  }

  lemma Repeated(names: seq<string>, saved: seq<Txt>, answers: seq<Content>, digest: string -> string, n: nat)
    requires |saved| == |names| && n < |answers| && PendsAt(answers[n]) && |answers[n].challenges| == 1
    requires answers[n].challenges[0].url in Destinations(answers, n)
    ensures !Consistent(names, saved, answers, digest)
  {
    hide Covers, Proves, Destinations;
    DestinationPends(answers, n, answers[n].challenges[0].url);
    var i :| 0 <= i < n && Pends(answers, i, answers[n].challenges[0].url,
        Destinations(answers, n)[answers[n].challenges[0].url]);
    assert PendsAt(answers[i]);
  }

  lemma SlotsAreAnswers(names: seq<string>, answers: seq<Content>, seen: set<string>, statuses: seq<Status>)
    requires Placed(names, answers, |answers|, seen, statuses, StatusOf) && Filled(names, answers, statuses, StatusOf)
    ensures SetOf(statuses) == StatusesOf(answers)
  {
    forall s ensures s in SetOf(statuses) <==> s in StatusesOf(answers) {
      if s in statuses {
        var k :| 0 <= k < |statuses| && statuses[k] == s;
        assert names[k] == names[k];
      }
      if s in StatusesOf(answers) {
        var i :| 0 <= i < |answers| && StatusOf(answers[i]) == s;
        var k :| 0 <= k < |names| && names[k] == answers[i].name;
        assert statuses[k] == s;
      }
    }
  }

  lemma NothingGathered(answers: seq<Content>)
    ensures Destinations(answers, 0) == map[] && ToAccept(answers, 0) == []
  {
  }

  lemma GatherStep(answers: seq<Content>, n: nat)
    requires n < |answers| && answers[n].Authorization?
    ensures var a := answers[n];
            if a.status == Pending && |a.challenges| == 1 then
              && Destinations(answers, n + 1) == Destinations(answers, n)[a.challenges[0].url := a.challenges[0].token]
              && ToAccept(answers, n + 1) ==
                 ToAccept(answers, n) + (if a.challenges[0].status == Pending then [a.challenges[0].url] else [])
            else
              && Destinations(answers, n + 1) == Destinations(answers, n)
              && ToAccept(answers, n + 1) == ToAccept(answers, n)
  {
  }

  lemma ProvesAtIndex(a: Content, names: seq<string>, saved: seq<Txt>, digest: string -> string, index: nat)
    requires |saved| == |names| && Distinct(names) && index < |names| && a.Authorization? && names[index] == a.name
    requires |a.challenges| == 1 && saved[index].required && digest(a.challenges[0].token) == saved[index].value
    ensures Proves(a, names, saved, digest)
  {
  }
}
