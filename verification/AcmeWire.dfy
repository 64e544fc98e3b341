/**
 What travels between the guarded ACME transports and the server, and which answers they accept
 (internal/acmestaging/order.go, validation.go; RFC 8555 sections 6.5, 7.1 and 7.4).

 Addresses are symbolic, one constructor for each path shape the profile accepts. A body is already
 parsed: Garbage stands for everything the strict readers refuse.
 */
module AcmeWire {
  import opened Common

  datatype Url =
    | DirectoryUrl | NonceUrl | NewOrderUrl | OrderUrl(id: string) | FinalizeUrl(id: string)
    | AuthzUrl(id: string) | ChallengeUrl(id: string) | CertUrl(id: string) | OtherUrl(text: string)

  datatype Verb = Get | Head | Post | OtherVerb

  datatype Payload = Empty | Identifiers(names: seq<string>) | AcceptChallenge | Csr(csr: string) | OtherPayload

  datatype Body = NoBody | Garbled | Signed(kid: string, nonce: string, url: Url, payload: Payload)

  // plain: the pinned host, no ambient credentials and, on a POST, the signed media type.
  datatype Request = Request(verb: Verb, url: Url, body: Body, plain: bool)

  datatype Status = Pending | Ready | Processing | Valid | Invalid | Expired | Revoked | Deactivated | OtherStatus

  // A wildcard name carries its "*." prefix; malformed: its URL or status field fails the strict reader.
  datatype Challenge = Challenge(dns: bool, url: Url, status: Status, token: string, error: bool)

  datatype Content =
    | Garbage
    | Directory
    | Order(status: Status, expires: Stamp, identifiers: seq<string>, authorizations: seq<Url>,
            finalize: Url, certificate: Option<Url>, error: bool)
    | Authorization(name: string, status: Status, expires: Stamp, challenges: seq<Challenge>)
    | Challenged(challenge: Challenge)
    | Chain(der: seq<string>)

  // Header checks that only compare lengths or media names: the encoding is absent or identity, the
  // declared length is within bounds, the media type is the one expected for this kind of request.
  datatype Answer = Answer(
    status: int, locations: seq<Url>, nonces: seq<string>, identity: bool, sized: bool, typed: bool, content: Content)

  // ---- Tokens ----

  // A base64url digit's value.
  function Sextet(c: char): Option<nat> {
    if 'A' <= c <= 'Z' then Some((c - 'A') as nat)
    else if 'a' <= c <= 'z' then Some((c - 'a') as nat + 26)
    else if '0' <= c <= '9' then Some((c - '0') as nat + 52)
    else if c == '-' then Some(62) else if c == '_' then Some(63) else None
  }

  // Canonical unpadded base64url of 16 to 256 bytes: the unused low bits of the last digit are zero.
  predicate ValidToken(v: string) {
    && 22 <= |v| <= 342 && |v| % 4 != 1
    && (forall c | c in v :: Sextet(c).Some?)
    && Sextet(v[|v| - 1]).Some? && var last := Sextet(v[|v| - 1]);
    (|v| % 4 == 2 ==> last.value % 16 == 0) && (|v| % 4 == 3 ==> last.value % 4 == 0)
  }

  // ---- Readers ----

  predicate Distinct<T(==)>(s: seq<T>) { forall i, j | 0 <= i < j < |s| :: s[i] != s[j] }

  predicate LiveAt(expires: Stamp, now: Stamp) { IsTime(expires) && expires > now }

  // The names and authorizations of an order are exactly those requested, each authorization once.
  predicate SameScope(w: Content, names: seq<string>)
    requires w.Order?
  {
    && |w.identifiers| == |w.authorizations| == |names|
    && multiset(w.identifiers) == multiset(names)
    && (forall u | u in w.authorizations :: u.AuthzUrl?) && Distinct(w.authorizations)
  }

  predicate ReadsChallenge(c: Challenge, url: Url, token: string) {
    && c.dns && c.url == url && url.ChallengeUrl? && ValidToken(c.token) && c.token == token
    && c.status in {Pending, Processing, Valid, Invalid} && (c.error ==> c.status == Invalid)
  }

  function DnsChallenges(cs: seq<Challenge>): seq<Challenge> {
    if cs == [] then [] else (if cs[0].dns then [cs[0]] else []) + DnsChallenges(cs[1..])
  }

  // readOrderAuthorization: the authorization an order preparation may look at.
  function ReadPreparation(w: Content, names: seq<string>, now: Stamp): Option<Content> {
    if !w.Authorization? || w.status !in {Pending, Valid} || !LiveAt(w.expires, now)
       || |w.challenges| > 8 || w.name !in names
       || (exists c | c in w.challenges :: !c.url.ChallengeUrl? || c.error) then None else
    var dns := DnsChallenges(w.challenges);
    if |dns| > 1 || (w.status == Pending && (|dns| != 1 || dns[0].status != Pending || !ValidToken(dns[0].token)))
        then None
    else Some(w.(challenges := dns))
  }

  // readValidationAuthorization: the authorization a validation or a finalization may look at.
  function ReadAuthorization(w: Content, names: seq<string>, now: Stamp): Option<Content> {
    if !w.Authorization? || w.status !in {Pending, Valid, Invalid, Expired, Revoked, Deactivated}
       || !LiveAt(w.expires, now) || |w.challenges| > 8 || w.name !in names
       || (exists c | c in w.challenges :: !c.url.ChallengeUrl?) then None else
    var dns := DnsChallenges(w.challenges);
    if (exists c | c in dns :: !ReadsChallenge(c, c.url, c.token)
                            || (w.status == Pending && c.status !in {Pending, Processing}))
       || |dns| > 1 || (w.status == Pending && |dns| != 1) then None
    else Some(w.(challenges := dns))
  }

  // ---- What the readers let through ----

  predicate AtMostOneDns(cs: seq<Challenge>) { forall i, j | 0 <= i < j < |cs| :: !cs[i].dns || !cs[j].dns }

  lemma {:induction false} DnsAreThose(cs: seq<Challenge>)
    ensures forall c :: c in DnsChallenges(cs) <==> c in cs && c.dns
  {
    if cs != [] {
      DnsAreThose(cs[1..]);
      assert cs == [cs[0]] + cs[1..];
    }
  }

  lemma {:induction false} DnsAreFew(cs: seq<Challenge>)
    ensures |DnsChallenges(cs)| <= 1 <==> AtMostOneDns(cs)
    ensures |DnsChallenges(cs)| == 0 <==> forall c | c in cs :: !c.dns
  {
    if cs != [] {
      var rest := cs[1..];
      DnsAreFew(rest);
      DnsStart(cs, rest);
      assert forall c :: c in cs <==> c == cs[0] || c in rest;
    }
  }

  lemma DnsStart(cs: seq<Challenge>, rest: seq<Challenge>)
    requires cs != [] && rest == cs[1..]
    ensures AtMostOneDns(cs) <==> AtMostOneDns(rest) && (cs[0].dns ==> forall c | c in rest :: !c.dns)
  {
    assert forall i | 0 <= i < |rest| :: rest[i] == cs[i + 1];
    forall i, j | 0 <= i < j < |cs| && AtMostOneDns(rest) && (cs[0].dns ==> forall c | c in rest :: !c.dns)
      ensures !cs[i].dns || !cs[j].dns
    {
      assert cs[j] == rest[j - 1];
      if i > 0 { assert cs[i] == rest[i - 1]; }
    }
  }

  // An authorization of one of the names, alive, and with no more than eight challenges at their own addresses.
  predicate Presentable(w: Content, names: seq<string>, now: Stamp) {
    && w.Authorization? && w.name in names && YEAR_2020 <= w.expires < YEAR_10000 && now < w.expires
    && |w.challenges| <= 8 && (forall c | c in w.challenges :: c.url.ChallengeUrl?) && AtMostOneDns(w.challenges)
  }

  // What is read of an authorization is it with its DNS challenge alone.
  ghost predicate OnlyDns(w: Content, read: Content) {
    && w.Authorization? && read.Authorization?
    && read.name == w.name && read.status == w.status && read.expires == w.expires
    && |read.challenges| <= 1 && forall c :: c in read.challenges <==> c in w.challenges && c.dns
  }

  /** Preparing an order reads an authorization if and only if it is valid, or pending with one untouched DNS
      challenge whose token is well formed, and nothing about its challenges is in error. */
  lemma PreparationsAreReadExactly(w: Content, names: seq<string>, now: Stamp)
    ensures ReadPreparation(w, names, now).Some? <==>
              && Presentable(w, names, now)
              && w.status in {Pending, Valid} && (forall c | c in w.challenges :: !c.error)
              && (w.status == Pending ==>
                    && (exists c | c in w.challenges :: c.dns)
                    && forall c | c in w.challenges && c.dns :: c.status == Pending && ValidToken(c.token))
    ensures ReadPreparation(w, names, now).Some? ==> OnlyDns(w, ReadPreparation(w, names, now).value)
  {
    hide ValidToken, DnsChallenges;
    if w.Authorization? {
      DnsAreThose(w.challenges);
      DnsAreFew(w.challenges);
      var dns := DnsChallenges(w.challenges);
      assert |dns| == 1 ==> dns[0] in dns && forall c | c in dns :: c == dns[0];
    }
  }

  /** Validating and finalizing read one if and only if its status is known, its DNS challenge, if any, is
      well formed and in error only when invalid, and while it is pending there is one still to be decided. */
  lemma AuthorizationsAreReadExactly(w: Content, names: seq<string>, now: Stamp)
    ensures ReadAuthorization(w, names, now).Some? <==>
              && Presentable(w, names, now)
              && w.status in {Pending, Valid, Invalid, Expired, Revoked, Deactivated}
              && (forall c | c in w.challenges && c.dns ::
                    && ValidToken(c.token) && c.status in {Pending, Processing, Valid, Invalid}
                    && (c.error ==> c.status == Invalid)
                    && (w.status == Pending ==> c.status in {Pending, Processing}))
              && (w.status == Pending ==> exists c | c in w.challenges :: c.dns)
    ensures ReadAuthorization(w, names, now).Some? ==> OnlyDns(w, ReadAuthorization(w, names, now).value)
  {
    hide ValidToken, DnsChallenges;
    if w.Authorization? {
      DnsAreThose(w.challenges);
      DnsAreFew(w.challenges);
    }
  }

  // An order for exactly these names, alive, with one authorization of its own for each.
  ghost predicate CoversNames(w: Content, names: seq<string>, now: Stamp) {
    && w.Order? && YEAR_2020 <= w.expires < YEAR_10000 && now < w.expires
    && |w.identifiers| == |names| && |w.authorizations| == |names|
    && (forall n :: multiset(w.identifiers)[n] == multiset(names)[n])
    && (forall u | u in w.authorizations :: u.AuthzUrl?)
    && forall i, j | 0 <= i < |w.authorizations| && 0 <= j < |w.authorizations| && i != j ::
         w.authorizations[i] != w.authorizations[j]
  }
}
