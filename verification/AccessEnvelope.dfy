/**
 The installation access file (internal/instanceaccess/access.go, recovery.go,
 recovery_enroll_core.go, access_upgrade_core.go): every ceremony rewraps the same data key.

 Cryptography is symbolic: a box opens only with a password that derives the same key and with the
 salt, nonce and associated data it was sealed with, a recovery wrap only with its code and identity,
 and a check names exactly the key, identity and wrap it was computed from. Randomness is a parameter.
 */
module AccessEnvelope {
  import opened Common
  import AsciiJson

  type Key = int
  type Id = int
  type Code = int

  type Password = seq<Byte>

  // SHA-256, for keys that do not fit a block.
  type Hash = Password -> Password

  ghost predicate Digests(hash: Hash) { forall p :: |hash(p)| == 32 }

  datatype Phase = Setup | Ready

  // id: the identity written in the clear and the one authenticated with the key.
  datatype Wrap = Wrap(id: Id, code: Code, bound: Id, plain: Key)

  datatype Check = Check(key: Key, id: Id, wrap: Wrap)

  datatype Aad =
    | Aad1(state: Phase)
    | Aad2(state: Phase, id: Id)
    | Aad3(state: Phase, id: Id, wrap: Wrap, check: Check)

  const BLOCK := 64

  // Key derivation starts from one block: HMAC hashes a key that does not fit it, then pads with zeros.
  function Reduced(hash: Hash, p: Password): Password { if |p| > BLOCK then hash(p) else p }

  function Padded(k: Password): Password { if |k| < BLOCK then k + seq(BLOCK - |k|, _ => 0) else k }

  function SeedOf(hash: Hash, p: Password): Password { Padded(Reduced(hash, p)) }

  predicate SameKey(hash: Hash, p: Password, q: Password) { SeedOf(hash, p) == SeedOf(hash, q) }

  datatype Box = Box(seed: Password, salt: int, nonce: int, aad: Aad, plain: Key)

  datatype Envelope =
    | V1(state: Phase, salt: int, nonce: int, box: Box)
    | V2(state: Phase, salt: int, nonce: int, id: Id, box: Box)
    | V3(state: Phase, salt: int, nonce: int, id: Id, wrap: Wrap, check: Check, box: Box)

  // The stored bytes: an envelope that reads, or anything else.
  datatype Body = Garbage | Stored(e: Envelope)

  datatype Error =
    | WrongPassword | InvalidAccess | ChangeRequired | IdentityMissing | IdentityExists | RecoveryExists
    | RecoveryMissing | InvalidRecovery | WeakPassword | PasswordTooLong | PasswordUnchanged | StateMismatch
    | StaleUpgrade | InvalidUpgrade | NotWritten | WriteUncertain

  datatype Result<T> = Ok(value: T) | Err(error: Error)

  datatype Opened = Opened(key: Key, state: Phase, id: Option<Id>)

  datatype Random = Random(salt: int, nonce: int)

  // ---- The envelope ----

  function Version(e: Envelope): int { if e.V1? then 1 else if e.V2? then 2 else 3 }

  function IdOf(e: Envelope): Option<Id> { if e.V1? then None else Some(e.id) }

  function AccessAad(e: Envelope): Aad {
    match e
    case V1(state, _, _, _) => Aad1(state)
    case V2(state, _, _, id, _) => Aad2(state, id)
    case V3(state, _, _, id, wrap, check, _) => Aad3(state, id, wrap, check)
  }

  function ParseEnvelope(b: Body): Result<Envelope> {
    if b.Garbage? || (b.e.V3? && (b.e.state != Ready || b.e.wrap.id != b.e.id)) then Err(InvalidAccess) else Ok(b.e)
  }

  predicate Usable(p: Password) { 1 <= |p| <= 1024 }

  // The characters of a password, a malformed byte counting as one.
  function Runes(p: Password): nat {
    if p == [] then 0 else 1 + Runes(p[if p[0] < 0x80 then 1 else AsciiJson.DecodeRune(p).1..])
  }

  function CheckPassword(p: Password): Result<()> {
    if |p| > 1024 then Err(PasswordTooLong) else if Runes(p) < 15 then Err(WeakPassword) else Ok(())
  }

  // The box opens with exactly what it was sealed with.
  function OpenBox(hash: Hash, b: Box, p: Password, salt: int, nonce: int, aad: Aad): Option<Key> {
    if b.seed == SeedOf(hash, p) && b.salt == salt && b.nonce == nonce && b.aad == aad then Some(b.plain) else None
  }

  function UnsealBody(hash: Hash, b: Body, p: Password): Result<Opened> {
    if !Usable(p) then Err(WrongPassword) else
    var parsed := ParseEnvelope(b);
    if parsed.Err? then Err(InvalidAccess) else
    var e := parsed.value;
    var key := OpenBox(hash, e.box, p, e.salt, e.nonce, AccessAad(e));
    if key.None? then Err(WrongPassword)
    else if e.V3? && e.check != Check(key.value, e.id, e.wrap) then Err(InvalidAccess)
    else Ok(Opened(key.value, e.state, IdOf(e)))
  }

  function SealWithRecovery(hash: Hash, key: Key, p: Password, state: Phase, id: Option<Id>, wrap: Option<Wrap>,
      r: Random): Result<Body> {
    if wrap.Some? && (state != Ready || id.None? || wrap.value.id != id.value) then Err(InvalidAccess)
    else if wrap.Some? then
      var check := Check(key, id.value, wrap.value);
      Ok(Stored(V3(state, r.salt, r.nonce, id.value, wrap.value, check,
                   Box(SeedOf(hash, p), r.salt, r.nonce, Aad3(state, id.value, wrap.value, check), key))))
    else if id.Some? then Ok(Stored(V2(state, r.salt, r.nonce, id.value,
        Box(SeedOf(hash, p), r.salt, r.nonce, Aad2(state, id.value), key))))
    else Ok(Stored(V1(state, r.salt, r.nonce, Box(SeedOf(hash, p), r.salt, r.nonce, Aad1(state), key))))
  }

  function CreateWrap(id: Id, key: Key, code: Code): Wrap { Wrap(id, code, id, key) }

  function OpenWrap(w: Wrap, code: Code, id: Id): Option<Key> {
    if w.id == id && w.code == code && w.bound == id then Some(w.plain) else None
  }

  function WrapOf(e: Envelope): Option<Wrap> { if e.V3? then Some(e.wrap) else None }

  // ---- Ceremonies: the body to install ----

  function Change(hash: Hash, b: Body, current: Password, next: Password, required: Phase, r: Random): Result<Body> {
    var checked := CheckPassword(next);
    if checked.Err? then Err(checked.error)
    else if current == next then Err(PasswordUnchanged)
    else
      var unsealed := UnsealBody(hash, b, current);
      if unsealed.Err? then Err(unsealed.error)
      else if unsealed.value.state != required then Err(StateMismatch)
      else
        var e := ParseEnvelope(b);
        if e.Err? then Err(e.error)
        else SealWithRecovery(hash, unsealed.value.key, next, Ready, unsealed.value.id, WrapOf(e.value), r)
  }

  datatype Action = Enroll | Rotate | ResetPassword

  // The credential is the password, or on a reset the recovery code.
  datatype Credential = ByPassword(password: Password) | ByCode(code: Code)

  function Authorized(hash: Hash, b: Body, e: Envelope, c: Credential, action: Action): Result<()> {
    if action != ResetPassword then
      if !c.ByPassword? then Err(WrongPassword) else
      var unsealed := UnsealBody(hash, b, c.password);
      if unsealed.Err? then Err(unsealed.error) else Ok(())
    else Ok(())
  }

  // The data key a recovery ceremony works with.
  function RecoveryKey(hash: Hash, b: Body, e: Envelope, c: Credential, action: Action): Result<Key> {
    if action != ResetPassword then
      if !c.ByPassword? then Err(WrongPassword) else
      var unsealed := UnsealBody(hash, b, c.password);
      if unsealed.Err? then Err(unsealed.error) else Ok(unsealed.value.key)
    else if !c.ByCode? || !e.V3? then Err(InvalidRecovery)
    else
      var key := OpenWrap(e.wrap, c.code, e.id);
      if key.None? || e.check != Check(key.value, e.id, e.wrap) then Err(InvalidRecovery) else Ok(key.value)
  }

  function ChangeRecovery(hash: Hash, b: Body, c: Credential, next: Password, action: Action, code: Code,
      r: Random): Result<Body> {
    var checked := CheckPassword(next);
    if action == ResetPassword && checked.Err? then Err(checked.error) else
    var parsed := ParseEnvelope(b);
    if parsed.Err? then Err(parsed.error) else
    var e := parsed.value;
    var authorized := Authorized(hash, b, e, c, action);
    if authorized.Err? then Err(authorized.error)
    else if e.state != Ready then Err(ChangeRequired)
    else if e.V1? then Err(IdentityMissing)
    else if action == Enroll && e.V3? then Err(RecoveryExists)
    else if action != Enroll && !e.V3? then Err(RecoveryMissing)
    else
      var key := RecoveryKey(hash, b, e, c, action);
      if key.Err? then Err(key.error) else
      var wrap := CreateWrap(e.id, key.value, code);
      if OpenWrap(wrap, code, e.id) != Some(key.value) then Err(InvalidRecovery)
      else SealWithRecovery(hash, key.value, if c.ByPassword? then c.password
          else next, Ready, Some(e.id), Some(wrap), r)
  }

  datatype Candidate = Candidate(expected: Body, body: Body, id: Id)

  // PrepareIdentityUpgrade: a version 2 replacement of an authenticated version 1 body.
  function PrepareUpgrade(hash: Hash, b: Body, p: Password, id: Id, r: Random): Result<Candidate> {
    var unsealed := UnsealBody(hash, b, p);
    if unsealed.Err? then Err(unsealed.error)
    else if unsealed.value.state != Ready then Err(ChangeRequired)
    else if unsealed.value.id.Some? then Err(IdentityExists)
    else
      var sealed := SealWithRecovery(hash, unsealed.value.key, p, Ready, Some(id), None, r);
      if sealed.Err? then Err(sealed.error) else Ok(Candidate(b, sealed.value, id))
  }

  // commitIdentityUpgradeLocked, for any candidate a caller may hold.
  function CommitUpgrade(hash: Hash, b: Body, p: Password, c: Candidate): Result<Body> {
    if b != c.expected then Err(StaleUpgrade) else
    var prior := UnsealBody(hash, b, p);
    if prior.Err? then Err(prior.error)
    else if prior.value.state != Ready then Err(ChangeRequired)
    else if prior.value.id.Some? then Err(IdentityExists)
    else
      var renewed := UnsealBody(hash, c.body, p);
      if renewed.Err? || renewed.value.state != Ready || renewed.value.id != Some(c.id)
          || renewed.value.key != prior.value.key
      then Err(InvalidUpgrade) else Ok(c.body)
  }

  // ---- Histories of ceremonies ----

  // Whether the replacement was made; whether it was confirmed afterwards only changes what the caller is told.
  datatype Ceremony =
    | ChangeInitialPassword(current: Password, next: Password, random: Random, replaced: bool)
    | ChangePassword(current: Password, next: Password, random: Random, replaced: bool)
    | UpgradeIdentity(password: Password, prepared: Body, id: Id, random: Random, replaced: bool)
    | Recover(credential: Credential, next: Password, action: Action, code: Code, random: Random, replaced: bool)

  // The file, and what the operator last set: the password, and the code once there is one.
  datatype System = System(body: Body, password: Password, code: Option<Code>)

  function Installed(s: System, result: Result<Body>, replaced: bool, password: Password, code: Option<Code>): System {
    if result.Ok? && replaced then System(result.value, password, code) else s
  }

  function Apply(hash: Hash, s: System, c: Ceremony): System {
    match c
    case ChangeInitialPassword(current, next, r, replaced) => Installed(s,
        Change(hash, s.body, current, next, Setup, r),
        replaced, next, s.code)
    case ChangePassword(current, next, r, replaced) => Installed(s, Change(hash, s.body, current, next, Ready, r),
        replaced,
        next, s.code)
    case UpgradeIdentity(p, prepared, id, r, replaced) =>
      var candidate := PrepareUpgrade(hash, prepared, p, id, r);
      if candidate.Err? then s else Installed(s, CommitUpgrade(hash, s.body, p, candidate.value), replaced, s.password,
          s.code)
    case Recover(credential, next, action, code, r, replaced) =>
      Installed(s, ChangeRecovery(hash, s.body, credential, next, action, code, r), replaced,
                if credential.ByPassword? then credential.password else next, Some(code))
  }

  function Run(hash: Hash, s: System, ceremonies: seq<Ceremony>): System {
    if ceremonies == [] then s
        else Apply(hash, Run(hash, s, ceremonies[..|ceremonies| - 1]), ceremonies[|ceremonies| - 1])
  }

  /** The file reads, the latest password opens it to the data key, and on version 3 so does the latest code. */
  predicate Holds(hash: Hash, s: System, key: Key) {
    && s.body.Stored? && UnsealBody(hash, s.body, s.password) == Ok(Opened(key, s.body.e.state, IdOf(s.body.e)))
    && (s.body.e.V3? ==> s.code.Some? && OpenWrap(s.body.e.wrap, s.code.value, s.body.e.id) == Some(key))
  }

  // What no ceremony takes back.
  predicate Progresses(before: Body, after: Body) {
    before.Stored? && after.Stored? ==>
      && Version(before.e) <= Version(after.e)
      && (before.e.state == Ready ==> after.e.state == Ready)
      && (IdOf(before.e).Some? ==> IdOf(after.e) == IdOf(before.e))
  }

  // ---- What every ceremony keeps ----

  lemma SealedBodyHolds(hash: Hash, key: Key, p: Password, id: Option<Id>, wrap: Option<Wrap>, r: Random)
    requires Usable(p) && SealWithRecovery(hash, key, p, Ready, id, wrap, r).Ok?
    ensures var b := SealWithRecovery(hash, key, p, Ready, id, wrap, r).value;
            && b.Stored? && UnsealBody(hash, b, p) == Ok(Opened(key, Ready, id))
            && b.e.state == Ready && IdOf(b.e) == id && WrapOf(b.e) == wrap
            && Version(b.e) == (if wrap.Some? then 3 else if id.Some? then 2 else 1)
  {
  }

  lemma ChangeKeeps(hash: Hash, s: System, key: Key, current: Password, next: Password, required: Phase, r: Random)
    requires Holds(hash, s, key) && Change(hash, s.body, current, next, required, r).Ok?
    ensures var b := Change(hash, s.body, current, next, required, r).value;
            Holds(hash, System(b, next, s.code), key) && Progresses(s.body, b) && b.e.state == Ready
                && SameKey(hash, current, s.password)
  {
    OnlyTheLatestPasswordOpens(hash, s, key, current);
    SealedBodyHolds(hash, key, next, IdOf(s.body.e), WrapOf(s.body.e), r);
  }

  /** A password opens the file if and only if it derives the key of the latest one. */
  lemma OnlyTheLatestPasswordOpens(hash: Hash, s: System, key: Key, p: Password)
    requires Holds(hash, s, key)
    ensures UnsealBody(hash, s.body, p).Ok? <==> Usable(p) && SameKey(hash, p, s.password)
    ensures UnsealBody(hash, s.body, p).Ok? ==> UnsealBody(hash, s.body, p) == UnsealBody(hash, s.body, s.password)
  {
    hide SeedOf;
  }

  // One is the other with zero bytes added at its end.
  predicate ZerosApart(a: Password, b: Password) {
    || (a <= b && forall i | |a| <= i < |b| :: b[i] == 0)
    || (b <= a && forall i | |b| <= i < |a| :: a[i] == 0)
  }

  /** Two passwords derive the same key exactly when, each longer than a block replaced by its digest,
      they are the same but for zero bytes at the end. */
  lemma SameKeyMeansSamePassword(hash: Hash, p: Password, q: Password)
    requires Digests(hash)
    ensures SameKey(hash, p, q) <==> ZerosApart(Reduced(hash, p), Reduced(hash, q))
  {
    PaddedAlike(Reduced(hash, p), Reduced(hash, q));
  }

  lemma PaddedAlike(a: Password, b: Password)
    requires |a| <= BLOCK && |b| <= BLOCK
    ensures Padded(a) == Padded(b) <==> ZerosApart(a, b)
    decreases |a| > |b|
  {
    if |a| > |b| {
      PaddedAlike(b, a);
    } else {
      var x, y := Padded(a), Padded(b);
      assert x[..|a|] == a && y[..|b|] == b;
      if x == y {
        assert a == b[..|a|];
        assert forall i | |a| <= i < |b| :: b[i] == y[i] == x[i] == 0;
      } else if ZerosApart(a, b) {
        assert forall i | 0 <= i < BLOCK :: x[i] == y[i];
      }
    }
  }

  /** A file set with one password opens with any other that derives the same key, and where the change
      from the one to the other is accepted it leaves the first opening the file. */
  lemma EitherPasswordOpens(hash: Hash, key: Key, id: Id, p: Password, q: Password, r: Random)
    requires SameKey(hash, p, q) && p != q && CheckPassword(p).Ok? && CheckPassword(q).Ok?
    ensures var b := Create(hash, key, id, p, r).value;
            && Create(hash, key, id, p, r).Ok? && UnsealBody(hash, b, p).Ok? && UnsealBody(hash, b, q).Ok?
            && Change(hash, b, p, q, Setup, r).Ok?
            && UnsealBody(hash, Change(hash, b, p, q, Setup, r).value, p).Ok?
  {
    hide SeedOf;
    LongEnough(p);
    LongEnough(q);
  }

  lemma LongEnough(p: Password)
    requires CheckPassword(p).Ok?
    ensures Usable(p)
  {
  }

  /** A password shorter than a block and the same with a zero byte after it are such a pair. */
  lemma ZeroByteIsIgnored(hash: Hash, p: Password)
    requires |p| < BLOCK && CheckPassword(p).Ok?
    ensures SameKey(hash, p, p + [0]) && p != p + [0] && CheckPassword(p + [0]).Ok?
  {
    PaddedAlike(p, p + [0]);
    ZeroIsOneRune(p);
  }

  lemma {:induction false} ZeroIsOneRune(p: Password)
    ensures Runes(p + [0]) == Runes(p) + 1
    decreases |p|
  {
    if p == [] {
      assert p + [0] == [0] && [0 as Byte][1..] == [];
    } else {
      var n := if p[0] < 0x80 then 1 else AsciiJson.DecodeRune(p).1;
      if p[0] >= 0x80 { ZeroContinuesNothing(p); }
      ZeroIsOneRune(p[n..]);
      assert (p + [0])[n..] == p[n..] + [0];
    }
  }

  lemma ZeroContinuesNothing(p: Password)
    requires p != [] && p[0] >= 0x80
    ensures AsciiJson.DecodeRune(p + [0]).1 == AsciiJson.DecodeRune(p).1
  {
    var s := p + [0];
    assert s[0] == p[0] && s[|p|] == 0;
  }

  /** A password longer than a block and its own digest are such a pair, where the digest counts enough
      characters to be accepted. */
  lemma DigestIsAnotherPassword(hash: Hash, p: Password)
    requires Digests(hash) && |p| > BLOCK
    ensures SameKey(hash, p, hash(p)) && p != hash(p) && Usable(hash(p))
    ensures CheckPassword(hash(p)).Ok? <==> Runes(hash(p)) >= 15
  {
  }

  // A password of 65 bytes, and what SHA-256 makes of it.
  const LONG: Password := [49, 45, 54, 52, 53, 54, 53, 45] + seq(57, _ => 97)

  const LONG_DIGEST: Password := [1, 108, 37, 81, 32, 41, 43] + ([205, 145] + ([8, 60, 78, 64, 126] + ([239, 158, 165]
    + ([207, 133] + ([116, 20, 99, 57, 58] + [209, 167, 44, 2, 69, 56, 119, 77])))))

  /** With SHA-256, a concrete pair: both passwords are accepted, and either opens the other's file. */
  lemma LongPasswordHasATwin(hash: Hash)
    requires Digests(hash) && hash(LONG) == LONG_DIGEST
    ensures SameKey(hash, LONG, LONG_DIGEST) && LONG != LONG_DIGEST
    ensures CheckPassword(LONG).Ok? && CheckPassword(LONG_DIGEST).Ok?
  {
    DigestIsAnotherPassword(hash, LONG);
    assert LONG + [] == LONG;
    AsciiRunes(LONG, []);
    DigestRunes();
  }

  lemma {:induction false} AsciiRunes(a: Password, rest: Password)
    requires forall i | 0 <= i < |a| :: a[i] < 0x80
    ensures Runes(a + rest) == |a| + Runes(rest)
  {
    if a == [] {
      assert a + rest == rest;
    } else {
      assert (a + rest)[1..] == a[1..] + rest;
      AsciiRunes(a[1..], rest);
    }
  }

  lemma DigestRunes()
    ensures Runes(LONG_DIGEST) >= 15
  {
    var end: Password := [209, 167, 44, 2, 69, 56, 119, 77];
    var tail: Password := [116, 20, 99, 57, 58] + end;
    var two: Password := [207, 133] + tail;
    var three: Password := [239, 158, 165] + two;
    var middle: Password := [8, 60, 78, 64, 126] + three;
    var first: Password := [205, 145] + middle;
    hide Runes;
    AsciiRunes([1, 108, 37, 81, 32, 41, 43], first);
    OneRune([205, 145], middle);
    AsciiRunes([8, 60, 78, 64, 126], three);
    OneRune([239, 158, 165], two);
    OneRune([207, 133], tail);
    AsciiRunes([116, 20, 99, 57, 58], end);
  }

  lemma OneRune(rune: Password, rest: Password)
    requires rune != [] && rune[0] >= 0x80 && AsciiJson.DecodeRune(rune + rest).1 == |rune|
    ensures Runes(rune + rest) == 1 + Runes(rest)
  {
    assert (rune + rest)[|rune|..] == rest;
  }

  lemma OnlyTheLatestCodeOpens(hash: Hash, s: System, key: Key, code: Code)
    requires Holds(hash, s, key) && s.body.e.V3?
    ensures OpenWrap(s.body.e.wrap, code, s.body.e.id).Some? <==> Some(code) == s.code
  {
  }

  lemma RecoveryKeeps(hash: Hash, s: System, key: Key, c: Credential, next: Password, action: Action, code: Code,
      r: Random)
    requires Holds(hash, s, key) && ChangeRecovery(hash, s.body, c, next, action, code, r).Ok?
    ensures var b := ChangeRecovery(hash, s.body, c, next, action, code, r).value;
            var password := if c.ByPassword? then c.password else next;
            Holds(hash, System(b, password, Some(code)), key) && Progresses(s.body, b)
  {
    var e := s.body.e;
    if c.ByPassword? { OnlyTheLatestPasswordOpens(hash, s, key, c.password); }
    assert RecoveryKey(hash, s.body, e, c, action) == Ok(key);
    SealedBodyHolds(hash, key, if c.ByPassword? then c.password
        else next, Some(e.id), Some(CreateWrap(e.id, key, code)), r);
  }

  /** Whatever candidate is committed, it carries the same data key under the same password, ready, with
      the identity it names; a candidate prepared from any other body is refused. */
  lemma CommitKeepsKey(hash: Hash, b: Body, p: Password, c: Candidate)
    requires CommitUpgrade(hash, b, p, c).Ok?
    ensures c.expected == b && UnsealBody(hash, b, p).Ok? && UnsealBody(hash, b, p).value.id.None?
    ensures UnsealBody(hash, CommitUpgrade(hash, b, p, c).value, p)
              == Ok(Opened(UnsealBody(hash, b, p).value.key, Ready, Some(c.id)))
  {
  }

  lemma UpgradeKeeps(hash: Hash, s: System, key: Key, p: Password, prepared: Body, id: Id, r: Random)
    requires Holds(hash, s, key) && PrepareUpgrade(hash, prepared, p, id, r).Ok?
    requires CommitUpgrade(hash, s.body, p, PrepareUpgrade(hash, prepared, p, id, r).value).Ok?
    ensures var b := CommitUpgrade(hash, s.body, p, PrepareUpgrade(hash, prepared, p, id, r).value).value;
            Holds(hash, System(b, s.password, s.code), key) && Progresses(s.body, b)
  {
    OnlyTheLatestPasswordOpens(hash, s, key, p);
    SealedBodyHolds(hash, key, p, Some(id), None, r);
  }

  lemma ApplyKeeps(hash: Hash, s: System, key: Key, c: Ceremony)
    requires Holds(hash, s, key)
    ensures Holds(hash, Apply(hash, s, c), key) && Progresses(s.body, Apply(hash, s, c).body)
  {
    hide UnsealBody, SealWithRecovery, Change, ChangeRecovery, CommitUpgrade, PrepareUpgrade, Holds, Progresses;
    StaysPut(hash, s, key);
    match c
    case ChangeInitialPassword(current, next, r, replaced) =>
      if Change(hash, s.body, current, next, Setup, r).Ok?
          && replaced { ChangeKeeps(hash, s, key, current, next, Setup, r); }
    case ChangePassword(current, next, r, replaced) =>
      if Change(hash, s.body, current, next, Ready, r).Ok?
          && replaced { ChangeKeeps(hash, s, key, current, next, Ready, r); }
    case UpgradeIdentity(p, prepared, id, r, replaced) =>
      if PrepareUpgrade(hash, prepared, p, id, r).Ok?
          && CommitUpgrade(hash, s.body, p, PrepareUpgrade(hash, prepared, p, id, r).value).Ok? && replaced {
        UpgradeKeeps(hash, s, key, p, prepared, id, r);
      }
    case Recover(credential, next, action, code, r, replaced) =>
      if ChangeRecovery(hash, s.body, credential, next, action, code, r).Ok? && replaced {
        RecoveryKeeps(hash, s, key, credential, next, action, code, r);
      }
  }

  lemma StaysPut(hash: Hash, s: System, key: Key)
    requires Holds(hash, s, key)
    ensures Progresses(s.body, s.body) && s.body.Stored?
  {
  }

  /** Over every sequence of ceremonies, with any inputs, failed replacements and unconfirmed writes: the
      file still holds the original data key under the latest password, on version 3 also under the
      latest code; the version never falls, ready never returns to setup, an identity once set stays. */
  lemma {:induction false} CeremoniesConserveTheKey(hash: Hash, s: System, key: Key, ceremonies: seq<Ceremony>)
    requires Holds(hash, s, key)
    ensures Holds(hash, Run(hash, s, ceremonies), key) && Progresses(s.body, Run(hash, s, ceremonies).body)
  {
    if ceremonies == [] {
      StaysPut(hash, s, key);
    } else {
      hide Apply, Holds;
      var front := ceremonies[..|ceremonies| - 1];
      CeremoniesConserveTheKey(hash, s, key, front);
      ApplyKeeps(hash, Run(hash, s, front), key, ceremonies[|ceremonies| - 1]);
      StaysPut(hash, Run(hash, s, front), key);
      StaysPut(hash, Run(hash, s, ceremonies), key);
    }
  }

  // ---- Who may run a ceremony ----

  // A usable password that derives the key of the latest one.
  predicate LatestPassword(hash: Hash, s: System, p: Password) {
    1 <= |p| <= 1024 && SeedOf(hash, p) == SeedOf(hash, s.password)
  }

  // What a recovery ceremony asks for: the file's own credential, at the right stage.
  predicate MayRecover(hash: Hash, s: System, c: Credential, next: Password, action: Action)
    requires s.body.Stored?
  {
    var e := s.body.e;
    && e.state == Ready
    && match action
       case Enroll => e.V2? && c.ByPassword? && LatestPassword(hash, s, c.password)
       case Rotate => e.V3? && c.ByPassword? && LatestPassword(hash, s, c.password)
       case ResetPassword => e.V3? && CheckPassword(next).Ok? && c.ByCode? && Some(c.code) == s.code
  }

  /** A code is enrolled or rotated if and only if the latest password is given on a ready file with an
      identity, without or with a code; a password is reset if and only if the latest code is given on a
      ready file that has one and the new password is acceptable. Another password or
      code is refused as such. */
  lemma RecoveryIsGrantedExactly(hash: Hash, s: System, key: Key, c: Credential, next: Password, action: Action,
      code: Code, r: Random)
    requires Holds(hash, s, key)
    ensures ChangeRecovery(hash, s.body, c, next, action, code, r).Ok? <==> MayRecover(hash, s, c, next, action)
    ensures action != ResetPassword && !(c.ByPassword? && LatestPassword(hash, s, c.password)) ==>
              ChangeRecovery(hash, s.body, c, next, action, code, r) == Err(WrongPassword)
    ensures action == ResetPassword && s.body.e.V3? && CheckPassword(next).Ok? && !(c.ByCode? && Some(c.code) == s.code)
            ==> ChangeRecovery(hash, s.body, c, next, action, code, r) == Err(InvalidRecovery)
  {
    hide SeedOf, CheckPassword;
    if c.ByPassword? { OnlyTheLatestPasswordOpens(hash, s, key, c.password); }
  }

  /** A password is changed if and only if the latest one is given, the file is at the stage asked for, and
      the new one is acceptable and not the very one given. */
  lemma ChangeIsGrantedExactly(hash: Hash, s: System, key: Key, current: Password, next: Password, required: Phase,
      r: Random)
    requires Holds(hash, s, key)
    ensures Change(hash, s.body, current, next, required, r).Ok? <==>
              && LatestPassword(hash, s, current) && s.body.e.state == required
              && CheckPassword(next).Ok? && next != current
    ensures CheckPassword(next).Ok? && next != current && !LatestPassword(hash, s, current) ==>
              Change(hash, s.body, current, next, required, r) == Err(WrongPassword)
  {
    hide SeedOf, CheckPassword;
    OnlyTheLatestPasswordOpens(hash, s, key, current);
  }

  /** An identity is added if and only if the latest password is given on a ready file that has none. */
  lemma UpgradeIsGrantedExactly(hash: Hash, s: System, key: Key, p: Password, id: Id, r: Random)
    requires Holds(hash, s, key)
    ensures PrepareUpgrade(hash, s.body, p, id, r).Ok? <==>
              LatestPassword(hash, s, p) && s.body.e.state == Ready && s.body.e.V1?
    ensures PrepareUpgrade(hash, s.body, p, id, r).Ok? ==>
              CommitUpgrade(hash, s.body, p, PrepareUpgrade(hash, s.body, p, id, r).value).Ok?
  {
    hide SeedOf;
    OnlyTheLatestPasswordOpens(hash, s, key, p);
  }

  // The ceremony was run by someone who knows what the operator last set.
  predicate Presents(hash: Hash, s: System, c: Ceremony) {
    match c
    case ChangeInitialPassword(current, _, _, _) => LatestPassword(hash, s, current)
    case ChangePassword(current, _, _, _) => LatestPassword(hash, s, current)
    case UpgradeIdentity(_, _, _, _, _) => false
    case Recover(credential, _, action, _, _, _) =>
      match credential
      case ByPassword(p) => action != ResetPassword && LatestPassword(hash, s, p)
      case ByCode(given) => action == ResetPassword && Some(given) == s.code
  }

  lemma ApplyNeedsCredential(hash: Hash, s: System, key: Key, c: Ceremony)
    requires Holds(hash, s, key)
    ensures var s' := Apply(hash, s, c);
            s'.password != s.password || s'.code != s.code || s'.body != s.body ==>
              Presents(hash, s, c) || (c.UpgradeIdentity? && LatestPassword(hash, s, c.password))
    ensures c.UpgradeIdentity? ==> Apply(hash, s, c).password == s.password && Apply(hash, s, c).code == s.code
  {
    hide Holds, LatestPassword, Change, ChangeRecovery, PrepareUpgrade, UnsealBody;
    match c
    case ChangeInitialPassword(current, next, r, _) => ChangeIsGrantedExactly(hash, s, key, current, next, Setup, r);
    case ChangePassword(current, next, r, _) => ChangeIsGrantedExactly(hash, s, key, current, next, Ready, r);
    case UpgradeIdentity(p, _, _, _, _) => UpgradeNeedsPassword(hash, s, key, p);
    case Recover(credential, next, action, code, r, _) =>
      RecoveryIsGrantedExactly(hash, s, key, credential, next, action, code, r);
      BodyIsStored(hash, s, key);
  }

  lemma BodyIsStored(hash: Hash, s: System, key: Key)
    requires Holds(hash, s, key)
    ensures s.body.Stored?
  {
  }

  lemma UpgradeNeedsPassword(hash: Hash, s: System, key: Key, p: Password)
    requires Holds(hash, s, key)
    ensures UnsealBody(hash, s.body, p).Ok? ==> LatestPassword(hash, s, p)
  {
    hide SeedOf;
    OnlyTheLatestPasswordOpens(hash, s, key, p);
  }

  /** Over every sequence of ceremonies, nothing about the file changes, neither its password nor its code nor
      a byte of it, but by a ceremony that presented the latest password, one that derives its key, or, to
      reset the password, the latest code. */
  lemma OnlyTheHolderChangesAnything(hash: Hash, s: System, key: Key, ceremonies: seq<Ceremony>, k: nat)
    requires Holds(hash, s, key) && k < |ceremonies|
    ensures var before, after := Run(hash, s, ceremonies[..k]), Run(hash, s, ceremonies[..k + 1]);
            after != before ==>
              || Presents(hash, before, ceremonies[k])
              || (ceremonies[k].UpgradeIdentity? && LatestPassword(hash, before, ceremonies[k].password)
                  && after.password == before.password && after.code == before.code)
  {
    hide Apply, Holds, Presents, LatestPassword;
    var front := ceremonies[..k + 1];
    assert front[..|front| - 1] == ceremonies[..k];
    CeremoniesConserveTheKey(hash, s, key, ceremonies[..k]);
    ApplyNeedsCredential(hash, Run(hash, s, ceremonies[..k]), key, ceremonies[k]);
  }

  // Create: the file a new installation starts from.
  function Create(hash: Hash, key: Key, id: Id, p: Password, r: Random): Result<Body> {
    var checked := CheckPassword(p);
    if checked.Err? then Err(checked.error) else SealWithRecovery(hash, key, p, Setup, Some(id), None, r)
  }

  /** A new installation holds its key under the initial password, not yet ready. */
  lemma CreatedFileHolds(hash: Hash, key: Key, id: Id, p: Password, r: Random)
    requires Create(hash, key, id, p, r).Ok?
    ensures Holds(hash, System(Create(hash, key, id, p, r).value, p, None), key)
    ensures Create(hash, key, id, p, r).value.e.state == Setup && IdOf(Create(hash, key, id, p, r).value.e) == Some(id)
  {
  }

  // ---- The ceremonies as they run ----

  datatype Outcome = NotReplaced | Unconfirmed | Confirmed

  class AccessFile {
    const hash: Hash
    var body: Body

    constructor (hash: Hash, b: Body)
      ensures this.hash == hash && body == b
    { this.hash, body := hash, b; }

    // Replace, sync and read back.
    method Install(next: Body, outcome: Outcome) returns (r: Result<()>)
      modifies this
      ensures body == if outcome == NotReplaced then old(body) else next
      ensures r.Ok? <==> outcome == Confirmed
    {
      if outcome == NotReplaced { return Err(NotWritten); }
      body := next;
      r := if outcome == Unconfirmed then Err(WriteUncertain) else Ok(());
    }

    /** changeLockedWithSync, after the checks of change. */
    method ChangeLocked(current: Password, next: Password, required: Phase, random: Random, outcome: Outcome)
        returns (r: Result<()>)
      modifies this
      ensures var planned := Change(hash, old(body), current, next, required, random);
              && body == (if planned.Ok? && outcome != NotReplaced then planned.value else old(body))
              && (planned.Err? ==> r == Err(planned.error)) && (r.Ok? <==> planned.Ok? && outcome == Confirmed)
    {
      hide UnsealBody, ParseEnvelope, SealWithRecovery;
      var checked := CheckPassword(next);
      if checked.Err? { return Err(checked.error); }
      if current == next { return Err(PasswordUnchanged); }
      var unsealed := UnsealBody(hash, body, current);
      if unsealed.Err? { return Err(unsealed.error); }
      if unsealed.value.state != required { return Err(StateMismatch); }
      var e := ParseEnvelope(body);
      if e.Err? { return Err(e.error); }
      var sealed := SealWithRecovery(hash, unsealed.value.key, next, Ready, unsealed.value.id, WrapOf(e.value), random);
      if sealed.Err? { return Err(sealed.error); }
      r := Install(sealed.value, outcome);
    }

    /** changeRecoveryLocked: the code is handed out only when the replacement was confirmed. */
    method ChangeRecoveryLocked(credential: Credential, next: Password, action: Action, code: Code, random: Random,
        outcome: Outcome)
      returns (r: Result<Code>)
      modifies this
      ensures var planned := ChangeRecovery(hash, old(body), credential, next, action, code, random);
              && body == (if planned.Ok? && outcome != NotReplaced then planned.value else old(body))
              && (planned.Err? ==> r == Err(planned.error))
                  && (if planned.Ok? && outcome == Confirmed then r == Ok(code) else r.Err?)
      ensures forall s: System, key | s.body == old(body) && Holds(hash, s, key) ::
                (r == Ok(code) <==> MayRecover(hash, s, credential, next, action) && outcome == Confirmed)
                && (body == old(body) || MayRecover(hash, s, credential, next, action))
    {
      forall s: System, key | s.body == body && Holds(hash, s, key)
        ensures ChangeRecovery(hash, body, credential, next, action, code, random).Ok?
                <==> MayRecover(hash, s, credential, next, action)
      {
        RecoveryIsGrantedExactly(hash, s, key, credential, next, action, code, random);
      }
      hide UnsealBody, SealWithRecovery, Holds, MayRecover;
      if action == ResetPassword {
        var checked := CheckPassword(next);
        if checked.Err? { return Err(checked.error); }
      }
      var parsed := ParseEnvelope(body);
      if parsed.Err? { return Err(parsed.error); }
      var e := parsed.value;
      var authorized := Authorized(hash, body, e, credential, action);
      if authorized.Err? { return Err(authorized.error); }
      if e.state != Ready { return Err(ChangeRequired); }
      if e.V1? { return Err(IdentityMissing); }
      if action == Enroll && e.V3? { return Err(RecoveryExists); }
      if action != Enroll && !e.V3? { return Err(RecoveryMissing); }
      var key := RecoveryKey(hash, body, e, credential, action);
      if key.Err? { return Err(key.error); }
      var wrap := CreateWrap(e.id, key.value, code);
      if OpenWrap(wrap, code, e.id) != Some(key.value) { return Err(InvalidRecovery); }
      var sealed := SealWithRecovery(hash, key.value, if credential.ByPassword? then credential.password
          else next, Ready, Some(e.id), Some(wrap), random);
      if sealed.Err? { return Err(sealed.error); }
      var installed := Install(sealed.value, outcome);
      r := if installed.Err? then Err(installed.error) else Ok(code);
    }

    /** commitIdentityUpgradeLocked: compare, verify, then replace. */
    method CommitIdentityUpgrade(p: Password, c: Candidate, outcome: Outcome) returns (r: Result<()>)
      modifies this
      ensures var planned := CommitUpgrade(hash, old(body), p, c);
              && body == (if planned.Ok? && outcome != NotReplaced then planned.value else old(body))
              && (planned.Err? ==> r == Err(planned.error)) && (r.Ok? <==> planned.Ok? && outcome == Confirmed)
    {
      hide UnsealBody;
      if body != c.expected { return Err(StaleUpgrade); }
      var prior := UnsealBody(hash, body, p);
      if prior.Err? { return Err(prior.error); }
      if prior.value.state != Ready { return Err(ChangeRequired); }
      if prior.value.id.Some? { return Err(IdentityExists); }
      var renewed := UnsealBody(hash, c.body, p);
      if renewed.Err? || renewed.value.state != Ready || renewed.value.id != Some(c.id)
          || renewed.value.key != prior.value.key {
        return Err(InvalidUpgrade);
      }
      r := Install(c.body, outcome);
    }
  }
}
