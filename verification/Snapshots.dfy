/**
 Snapshot framing (internal/instanceaccess/snapshot.go and full_snapshot.go): opening undoes
 creating, an accepted file has no byte that is not accounted for, and no length wraps.

 Authentication, unlocking and image validation are given functions; their results are what the
 framing is checked against.
 */
module Snapshots {
  import opened Common

  type Bytes = seq<Byte>

  const ACCESS_MAGIC: Bytes := [82, 87, 65, 67, 67, 69, 83, 83, 49]   // RWACCESS1
  const FULL_MAGIC: Bytes := [82, 87, 70, 85, 76, 76, 48, 49]        // RWFULL01
  const MAX_FILE := 4096
  const OVERHEAD := 61
  const MAX_SNAPSHOT := OVERHEAD + MAX_FILE
  const FULL_HEADER := 16
  const MAX_FULL := 104857600
  const WORD := 4294967296

  datatype Credential = Password(text: string) | RecoveryCode(text: string)

  datatype Unlocked = Unlocked(key: int, id: int)

  // accessMac and fullMac: the labelled MACs; unlock: a version 3 ready envelope opened with either
  // credential; openImage: the generation of a valid inventory image.
  datatype Suite = Suite(
    accessMac: (int, Bytes) -> Bytes, fullMac: (int, Bytes) -> Bytes,
    unlock: (Bytes, Credential) -> Option<Unlocked>, openImage: (int, int, Bytes) -> Option<nat>)

  ghost predicate Fixed(s: Suite) {
    && (forall key, b :: |s.accessMac(key, b)| == 32)
    && (forall key, b :: |s.fullMac(key, b)| == 32)
  }

  // ---- 32-bit lengths ----

  // What the conversion to uint32 stores, most significant byte first.
  function Put32(n: nat): (r: Bytes)
    ensures |r| == 4
  {
    var w := n % WORD;
    [w / 16777216, w / 65536 % 256, w / 256 % 256, w % 256]
  }

  function Get32(b: Bytes): nat
    requires |b| == 4
  { 16777216 * b[0] as int + 65536 * b[1] as int + 256 * b[2] as int + b[3] as int }

  lemma PutGet(n: nat)
    ensures Get32(Put32(n)) == n % WORD
  {
    var w := n % WORD;
    assert w / 256 / 256 == w / 65536;
    assert w / 65536 / 256 == w / 16777216;
  }

  lemma GetPut(b: Bytes)
    requires |b| == 4
    ensures Put32(Get32(b)) == b && Get32(b) < WORD
  {
    var w := Get32(b);
    var two := 256 * b[0] as int + b[1] as int;
    var three := 256 * two + b[2] as int;
    assert w == 256 * three + b[3] as int;
    hide Get32;
    PutDigits(w);
    hide Put32;
    LastByte(b[0] as int, b[1]);
    LastByte(two, b[2]);
    LastByte(three, b[3]);
    assert b == [b[0], b[1], b[2], b[3]];
  }

  lemma PutDigits(w: nat)
    requires w < WORD
    ensures w / 256 / 256 / 256 < 256
    ensures Put32(w) == [w / 256 / 256 / 256, w / 256 / 256 % 256, w / 256 % 256, w % 256]
  {
    HigherBytes(w);
  }

  lemma HigherBytes(w: nat)
    ensures w / 65536 == w / 256 / 256 && w / 16777216 == w / 256 / 256 / 256
  {
  }

  lemma LastByte(high: nat, low: Byte)
    ensures (256 * high + low as int) / 256 == high && (256 * high + low as int) % 256 == low as int
  {
  }

  // ---- The access snapshot ----

  function AccessContents(body: Bytes, random: Bytes): Bytes {
    ACCESS_MAGIC + random + Put32(|body|) + body
  }

  function CreateAccess(s: Suite, body: Bytes, random: Bytes, password: Credential, code: Credential): Option<Bytes> {
    if |body| == 0 || |body| > MAX_FILE || |random| != 16 then None else
    var owner, recovered := s.unlock(body, password), s.unlock(body, code);
    if owner.None? || recovered.None? || recovered.value != owner.value then None
    else
      var contents := AccessContents(body, random);
      Some(contents + s.accessMac(owner.value.key, contents))
  }

  datatype AccessOpened = AccessOpened(body: Bytes, id: int, key: int)

  function OpenAccess(s: Suite, snapshot: Bytes, credential: Credential): Option<AccessOpened> {
    if |snapshot| < OVERHEAD + 1 || |snapshot| > MAX_SNAPSHOT || snapshot[..9] != ACCESS_MAGIC then None else
    var declared := Get32(snapshot[25..29]);
    if declared == 0 || declared > MAX_FILE || |snapshot| != OVERHEAD + declared then None else
    var body := snapshot[29..|snapshot| - 32];
    var unlocked := s.unlock(body, credential);
    if unlocked.None? || s.accessMac(unlocked.value.key, snapshot[..|snapshot| - 32]) != snapshot[|snapshot| - 32..]
        then None
    else Some(AccessOpened(body, unlocked.value.id, unlocked.value.key))
  }

  lemma AccessLayout(body: Bytes, random: Bytes, mac: Bytes)
    requires |random| == 16 && |mac| == 32
    ensures var f := AccessContents(body, random) + mac;
            && |f| == OVERHEAD + |body| && f[..9] == ACCESS_MAGIC && f[9..25] == random && f[25..29] == Put32(|body|)
            && f[29..|f| - 32] == body && f[..|f| - 32] == AccessContents(body, random) && f[|f| - 32..] == mac
  {
    hide Put32;
  }

  /** Opening an access snapshot with a credential its body accepts gives back the body, identity and key. */
  lemma AccessRoundTrip(s: Suite, body: Bytes, random: Bytes, password: Credential, code: Credential,
      credential: Credential)
    requires Fixed(s) && CreateAccess(s, body, random, password, code).Some?
    requires credential == password || credential == code
    ensures OpenAccess(s, CreateAccess(s, body, random, password, code).value, credential) ==
            Some(AccessOpened(body, s.unlock(body, password).value.id, s.unlock(body, password).value.key))
    ensures |CreateAccess(s, body, random, password, code).value| == OVERHEAD + |body| <= MAX_SNAPSHOT
  {
    hide Put32, Get32, AccessContents;
    var key := s.unlock(body, password).value.key;
    AccessLayout(body, random, s.accessMac(key, AccessContents(body, random)));
    PutGet(|body|);
  }

  /** Every byte of an accepted access snapshot is the magic, the random identity, the body's length, the
      body or its MAC. */
  lemma AccessIsExact(s: Suite, snapshot: Bytes, credential: Credential)
    requires OpenAccess(s, snapshot, credential).Some?
    ensures var o := OpenAccess(s, snapshot, credential).value;
            && 1 <= |o.body| <= MAX_FILE
            && snapshot == AccessContents(o.body, snapshot[9..25])
                + s.accessMac(o.key, AccessContents(o.body, snapshot[9..25]))
            && s.unlock(o.body, credential) == Some(Unlocked(o.key, o.id))
  {
    hide Put32, Get32;
    var body, signed := snapshot[29..|snapshot| - 32], snapshot[..|snapshot| - 32];
    GetPut(snapshot[25..29]);
    assert signed == signed[..9] + signed[9..25] + signed[25..29] + signed[29..];
    assert signed[..9] == ACCESS_MAGIC && signed[9..25] == snapshot[9..25];
    assert signed[25..29] == snapshot[25..29] && signed[29..] == body;
  }

  // ---- The full snapshot ----

  function FullContents(access: Bytes, image: Bytes): Bytes {
    FULL_MAGIC + Put32(|access|) + Put32(|image|) + access + image
  }

  function CreateFull(s: Suite, body: Bytes, image: Bytes, random: Bytes, password: Credential,
      code: Credential): Option<Bytes> {
    var access := CreateAccess(s, body, random, password, code);
    if access.None? then None else
    var unlocked := s.unlock(body, password);
    if unlocked.None? || s.openImage(unlocked.value.key, unlocked.value.id, image).None? then None
    else if |image| == 0 || |image| > MAX_FULL - FULL_HEADER - |access.value| - 32 then None
    else
      var contents := FullContents(access.value, image);
      Some(contents + s.fullMac(unlocked.value.key, contents))
  }

  datatype FullOpened = FullOpened(body: Bytes, id: int, image: Bytes, generation: nat)

  function OpenFull(s: Suite, snapshot: Bytes, credential: Credential): Option<FullOpened> {
    if |snapshot| < FULL_HEADER + OVERHEAD + 1 + 1 + 32 || |snapshot| > MAX_FULL
        || snapshot[..8] != FULL_MAGIC then None else
    var accessLen, imageLen := Get32(snapshot[8..12]), Get32(snapshot[12..16]);
    if accessLen < OVERHEAD + 1 || accessLen > MAX_SNAPSHOT || imageLen == 0
       || FULL_HEADER + accessLen + imageLen + 32 != |snapshot| then None else
    var access := snapshot[FULL_HEADER..FULL_HEADER + accessLen];
    var image := snapshot[FULL_HEADER + accessLen..|snapshot| - 32];
    var o := OpenAccess(s, access, credential);
    if o.None? || s.fullMac(o.value.key, snapshot[..|snapshot| - 32]) != snapshot[|snapshot| - 32..] then None else
    var generation := s.openImage(o.value.key, o.value.id, image);
    if generation.None? then None else Some(FullOpened(o.value.body, o.value.id, image, generation.value))
  }

  lemma FullLayout(access: Bytes, image: Bytes, mac: Bytes)
    requires |mac| == 32
    ensures var f := FullContents(access, image) + mac;
            && |f| == FULL_HEADER + |access| + |image| + 32 && f[..8] == FULL_MAGIC
            && f[8..12] == Put32(|access|) && f[12..16] == Put32(|image|)
            && f[FULL_HEADER..FULL_HEADER + |access|] == access && f[FULL_HEADER + |access|..|f| - 32] == image
            && f[..|f| - 32] == FullContents(access, image) && f[|f| - 32..] == mac
  {
    hide Put32;
  }

  /** Opening a full snapshot, with the password or the recovery code, gives back exactly the access body,
      identity and image it was made from; both lengths are below 2^32, so neither wraps. */
  lemma FullRoundTrip(s: Suite, body: Bytes, image: Bytes, random: Bytes, password: Credential, code: Credential,
      credential: Credential)
    requires Fixed(s) && CreateFull(s, body, image, random, password, code).Some?
    requires credential == password || credential == code
    ensures var unlocked := s.unlock(body, password).value;
            OpenFull(s, CreateFull(s, body, image, random, password, code).value, credential) ==
            Some(FullOpened(body, unlocked.id, image, s.openImage(unlocked.key, unlocked.id, image).value))
    ensures |CreateAccess(s, body, random, password, code).value| < WORD && |image| < WORD
  {
    hide Put32, Get32, AccessContents, FullContents, OpenAccess, CreateAccess;
    AccessRoundTrip(s, body, random, password, code, credential);
    var access, key := CreateAccess(s, body, random, password, code).value, s.unlock(body, password).value.key;
    AccessIsNotEmpty(s, body, random, password, code);
    FullLayout(access, image, s.fullMac(key, FullContents(access, image)));
    PutGet(|access|);
    PutGet(|image|);
  }

  lemma AccessIsNotEmpty(s: Suite, body: Bytes, random: Bytes, password: Credential, code: Credential)
    requires CreateAccess(s, body, random, password, code).Some?
    ensures |body| >= 1
  {
  }

  // A sequence is its five stretches.
  lemma Divided(b: Bytes, n: nat)
    requires 16 + n <= |b|
    ensures b == b[..8] + b[8..12] + b[12..16] + b[16..16 + n] + b[16 + n..]
  {
    assert b[..8] + b[8..12] == b[..12];
    assert b[..12] + b[12..16] == b[..16];
    assert b[..16] + b[16..16 + n] == b[..16 + n];
  }

  /** Every byte of an accepted full snapshot is header, access snapshot, image or MAC, and the access
      snapshot inside is itself exact. */
  lemma FullIsExact(s: Suite, snapshot: Bytes, credential: Credential)
    requires OpenFull(s, snapshot, credential).Some?
    ensures exists access, key ::
              && var o := OpenFull(s, snapshot, credential).value;
              && snapshot == FullContents(access, o.image) + s.fullMac(key, FullContents(access, o.image))
              && OpenAccess(s, access, credential) == Some(AccessOpened(o.body, o.id, key))
              && s.openImage(key, o.id, o.image) == Some(o.generation)
  {
    hide Put32, Get32, OpenAccess;
    GetPut(snapshot[8..12]);
    GetPut(snapshot[12..16]);
    var accessLen := Get32(snapshot[8..12]);
    var access := snapshot[FULL_HEADER..FULL_HEADER + accessLen];
    var image := snapshot[FULL_HEADER + accessLen..|snapshot| - 32];
    var signed := snapshot[..|snapshot| - 32];
    Divided(signed, accessLen);
    assert signed[..8] == FULL_MAGIC && signed[8..12] == snapshot[8..12] && signed[12..16] == snapshot[12..16];
    assert signed[16..16 + accessLen] == access && signed[16 + accessLen..] == image;
    assert signed == FullContents(access, image);
    assert snapshot == snapshot[..|snapshot| - 32] + snapshot[|snapshot| - 32..];
  }

  /** Two different pairs never share an authenticated encoding, whatever their contents. */
  lemma FullContentsAreInjective(access: Bytes, image: Bytes, access': Bytes, image': Bytes)
    requires |access| < WORD && |access'| < WORD && |image| < WORD && |image'| < WORD
    requires FullContents(access, image) == FullContents(access', image')
    ensures access == access' && image == image'
  {
    hide Put32, Get32;
    var f := FullContents(access, image);
    assert f[8..12] == Put32(|access|) && FullContents(access', image')[8..12] == Put32(|access'|);
    PutGet(|access|);
    PutGet(|access'|);
    assert f[16..16 + |access|] == access && FullContents(access', image')[16..16 + |access'|] == access';
    assert f[16 + |access|..] == image && FullContents(access', image')[16 + |access'|..] == image';
  }

  // ---- Filling the buffers ----

  // copy: fills the next stretch of the buffer.
  method Copy(out: array<Byte>, at: nat, source: Bytes)
    requires at + |source| <= out.Length
    modifies out
    ensures out[..at + |source|] == old(out[..at]) + source
  {
    for i := 0 to |source|
      invariant out[..at] == old(out[..at])
      invariant out[at..at + i] == source[..i]
    {
      out[at + i] := source[i];
    }
    assert out[..at + |source|] == out[..at] + out[at..at + |source|];
    assert source[..|source|] == source;
  }

  /** createAccessSnapshot's buffer. */
  method FillAccess(s: Suite, body: Bytes, random: Bytes, key: int) returns (out: array<Byte>)
    requires Fixed(s) && |random| == 16
    ensures fresh(out)
    ensures out[..] == AccessContents(body, random) + s.accessMac(key, AccessContents(body, random))
  {
    out := new Byte[OVERHEAD + |body|](_ => 0);
    hide Put32;
    assert out[..0] + ACCESS_MAGIC == ACCESS_MAGIC;
    Copy(out, 0, ACCESS_MAGIC);
    Copy(out, 9, random);
    Copy(out, 25, Put32(|body|));
    Copy(out, 29, body);
    assert out[..29 + |body|] == AccessContents(body, random);
    Copy(out, out.Length - 32, s.accessMac(key, out[..out.Length - 32]));
    assert out[..out.Length] == out[..];
  }

  /** createFullSnapshot's buffer. */
  method FillFull(s: Suite, access: Bytes, image: Bytes, key: int) returns (out: array<Byte>)
    requires Fixed(s)
    ensures fresh(out)
    ensures out[..] == FullContents(access, image) + s.fullMac(key, FullContents(access, image))
  {
    out := new Byte[FULL_HEADER + |access| + |image| + 32](_ => 0);
    hide Put32;
    assert out[..0] + FULL_MAGIC == FULL_MAGIC;
    Copy(out, 0, FULL_MAGIC);
    Copy(out, 8, Put32(|access|));
    Copy(out, 12, Put32(|image|));
    Copy(out, FULL_HEADER, access);
    Copy(out, FULL_HEADER + |access|, image);
    assert out[..FULL_HEADER + |access| + |image|] == FullContents(access, image);
    Copy(out, out.Length - 32, s.fullMac(key, out[..out.Length - 32]));
    assert out[..out.Length] == out[..];
  }
}
