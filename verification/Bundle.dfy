/**
 Preparing a certificate bundle (PrepareBundle in internal/certificatepair/bundle.go): the choice of
 the primary certificate, its issuer path and the refusal of anything unrelated depend on which
 certificates were supplied, never on their order.

 Parsing is done; a certificate is what the checks look at, and signature verification is a given
 relation. Fingerprints are distinct, so a certificate is its own identity.
 */
module Bundle {
  import opened Common

  datatype Cert = Cert(fingerprint: string, issuer: string, subject: string, ca: bool, key: string, matched: bool)

  type Signed = (Cert, Cert) -> bool

  datatype Verdict = Refused | Ask(candidates: seq<Cert>) | Prepared(primary: Cert, path: seq<Cert>, bundle: seq<Cert>)

  predicate DistinctFingerprints(certs: seq<Cert>) {
    forall i, j | 0 <= i < j < |certs| :: certs[i].fingerprint != certs[j].fingerprint
  }

  function SetOf(certs: seq<Cert>): set<Cert> { set c | c in certs }

  // ---- What is meant, on the set of certificates ----

  predicate Names(child: Cert, parent: Cert) { child.issuer == parent.subject }

  predicate SelfSigned(c: Cert, signed: Signed) { Names(c, c) && signed(c, c) }

  function Parents(all: set<Cert>, child: Cert, signed: Signed): set<Cert> {
    set p | p in all && p != child && Names(child, p) && signed(child, p)
  }

  function Candidates(all: set<Cert>): set<Cert> {
    var leaves := set c | c in all && !c.ca;
    if leaves == {} then all else leaves
  }

  function Matching(all: set<Cert>): set<Cert> { set c | c in all && !c.ca && c.matched }

  function Choices(all: set<Cert>): set<Cert> {
    if Matching(all) != {} then Matching(all) else Candidates(all)
  }

  datatype Choice = NoChoice | Several(candidates: set<Cert>) | Chosen(primary: Cert)

  ghost predicate Only(s: set<Cert>, c: Cert) { s == {c} }

  ghost function Choose(all: set<Cert>, hasKey: bool, selected: string): Choice {
    if hasKey && exists c | c in all :: c.ca && c.matched then NoChoice
    else if selected == "" then
      if exists c :: Only(Choices(all), c) then
        var c :| Only(Choices(all), c);
        if hasKey && c.ca then NoChoice else Chosen(c)
      else Several(Choices(all))
    else if exists c :: c in all && c.fingerprint == selected then
      var c :| c in all && c.fingerprint == selected;
      if hasKey && c.ca then NoChoice else Chosen(c)
    else NoChoice
  }

  /** The issuers above a certificate, each the only verified parent of the one before; None when a
      parent is ambiguous or the path comes back to itself. */
  ghost function Walk(all: set<Cert>, current: Cert, seen: set<Cert>, signed: Signed): Option<seq<Cert>>
    requires seen <= all
    decreases |all - seen|
  {
    var parents := Parents(all, current, signed);
    if SelfSigned(current, signed) || parents == {} then Some([])
    else if exists p :: Only(parents, p) then
      var p :| Only(parents, p);
      assert p in parents;
      if p in seen then None
      else
        Smaller(all, seen, p);
        var rest := Walk(all, p, seen + {p}, signed);
        if rest.None? then None else Some([p] + rest.value)
    else None
  }

  lemma Smaller(all: set<Cert>, seen: set<Cert>, p: Cert)
    requires p in all && p !in seen
    ensures |all - (seen + {p})| < |all - seen|
  {
    assert all - seen == (all - (seen + {p})) + {p};
  }

  // A certificate beside the path must be the primary's sibling, signed by whatever supplied CA it names.
  predicate Sibling(all: set<Cert>, c: Cert, primary: Cert, signed: Signed) {
    && !c.ca && c.key == primary.key && c.issuer == primary.issuer
    && forall p | p in all && p != c && p.ca && Names(c, p) :: signed(c, p)
  }

  /** The verdict on a set of certificates. */
  ghost predicate Accepts(all: set<Cert>, hasKey: bool, selected: string, signed: Signed, v: Verdict) {
    match Choose(all, hasKey, selected)
    case NoChoice => v == Refused
    case Several(candidates) => v.Ask? && SetOf(v.candidates) == candidates
    case Chosen(primary) =>
      if primary !in all then v == Refused else
      var path := Walk(all, primary, {primary}, signed);
      if path.Some? && forall c | c in all && c != primary && c !in path.value :: Sibling(all, c, primary, signed)
      then v.Prepared? && v.primary == primary && v.path == path.value && SetOf(v.bundle) == all
          && DistinctFingerprints(v.bundle)
      else v == Refused
  }

  // ---- The path ----

  function Before(first: Cert, path: seq<Cert>, i: nat): Cert
    requires i <= |path|
  { if i == 0 then first else path[i - 1] }

  // Consecutive certificates of a path: the next is the only verified parent of the one before.
  ghost predicate Linked(all: set<Cert>, first: Cert, path: seq<Cert>, signed: Signed) {
    forall i | 0 <= i < |path| :: Only(Parents(all, Before(first, path, i), signed), path[i])
  }

  // A walk's first step and the walk that remains.
  lemma FirstStep(all: set<Cert>, current: Cert, seen: set<Cert>, signed: Signed)
    requires seen <= all && Walk(all, current, seen, signed).Some? && Walk(all, current, seen, signed).value != []
    ensures var path := Walk(all, current, seen, signed).value;
            && path[0] in all && path[0] !in seen && Only(Parents(all, current, signed), path[0])
            && Walk(all, path[0], seen + {path[0]}, signed) == Some(path[1..])
            && |all - (seen + {path[0]})| < |all - seen|
  {
    var path := Walk(all, current, seen, signed).value;
    assert path[0] in Parents(all, current, signed);
    assert [path[0]] + path[1..] == path;
    Smaller(all, seen, path[0]);
  }

  /** A prepared path is simple, stays clear of what was already seen, and every step is a unique
      verified parent. */
  lemma {:induction false} PathIsSimple(all: set<Cert>, current: Cert, seen: set<Cert>, signed: Signed)
    requires seen <= all && Walk(all, current, seen, signed).Some?
    ensures var path := Walk(all, current, seen, signed).value;
            && (forall c | c in path :: c in all && c !in seen)
            && (forall i, j | 0 <= i < j < |path| :: path[i] != path[j])
            && Linked(all, current, path, signed)
    decreases |all - seen|
  {
    hide Walk, Parents, Only;
    var path := Walk(all, current, seen, signed).value;
    if path != [] {
      var p := path[0];
      FirstStep(all, current, seen, signed);
      PathIsSimple(all, p, seen + {p}, signed);
      LinkedPrepend(all, current, path, signed);
    }
  }

  lemma LinkedPrepend(all: set<Cert>, current: Cert, path: seq<Cert>, signed: Signed)
    requires path != [] && Only(Parents(all, current, signed), path[0]) && Linked(all, path[0], path[1..], signed)
    ensures Linked(all, current, path, signed)
  {
    hide Parents, Only;
    forall i | 0 <= i < |path| ensures Only(Parents(all, Before(current, path, i), signed), path[i]) {
      if i > 0 {
        assert path[i] == path[1..][i - 1] && Before(current, path, i) == Before(path[0], path[1..], i - 1);
      }
    }
  }

  /** The path ends where nothing verified lies above: at a self-signed certificate or a partial chain. */
  lemma {:induction false} PathIsComplete(all: set<Cert>, current: Cert, seen: set<Cert>, signed: Signed)
    requires seen <= all && Walk(all, current, seen, signed).Some?
    ensures var path := Walk(all, current, seen, signed).value;
            var top := if path == [] then current else path[|path| - 1];
            SelfSigned(top, signed) || Parents(all, top, signed) == {}
    decreases |all - seen|
  {
    var path := Walk(all, current, seen, signed).value;
    if path != [] {
      FirstStep(all, current, seen, signed);
      PathIsComplete(all, path[0], seen + {path[0]}, signed);
    }
  }

  // ---- Order does not matter ----

  // The same verdict, up to the order in which a choice or the bundle is listed.
  ghost predicate SameVerdict(v: Verdict, w: Verdict) {
    match v
    case Refused => w == Refused
    case Ask(candidates) => w.Ask? && SetOf(w.candidates) == SetOf(candidates)
    case Prepared(primary, path, bundle) =>
      w.Prepared? && w.primary == primary && w.path == path && multiset(w.bundle) == multiset(bundle)
  }

  lemma {:induction false} CountedOnce(certs: seq<Cert>, c: Cert)
    requires DistinctFingerprints(certs)
    ensures multiset(certs)[c] == if c in certs then 1 else 0
  {
    if certs != [] {
      var front, last := certs[..|certs| - 1], certs[|certs| - 1];
      assert certs == front + [last];
      CountedOnce(front, c);
      assert last !in front;
    }
  }

  /** Every permutation of the certificates gets the same verdict, primary and issuer path, and a
      prepared bundle lists every supplied certificate exactly once. */
  lemma OrderDoesNotMatter(a: seq<Cert>, b: seq<Cert>, hasKey: bool, selected: string, signed: Signed, v: Verdict,
      w: Verdict)
    requires DistinctFingerprints(a) && multiset(a) == multiset(b)
    requires Accepts(SetOf(a), hasKey, selected, signed, v) && Accepts(SetOf(b), hasKey, selected, signed, w)
    ensures SameVerdict(v, w)
    ensures v.Prepared? ==> multiset(v.bundle) == multiset(a)
  {
    assert SetOf(a) == SetOf(b) by {
      forall c ensures c in a <==> c in b { assert c in multiset(a) <==> c in multiset(b); }
    }
    if v.Prepared? {
      SameElements(v.bundle, a);
      assert w.Prepared?;
      SameElements(w.bundle, a);
    }
  }

  lemma SameElements(a: seq<Cert>, b: seq<Cert>)
    requires DistinctFingerprints(a) && DistinctFingerprints(b) && SetOf(a) == SetOf(b)
    ensures multiset(a) == multiset(b)
  {
    forall c ensures multiset(a)[c] == multiset(b)[c] {
      CountedOnce(a, c);
      CountedOnce(b, c);
      assert c in a <==> c in SetOf(a);
      assert c in b <==> c in SetOf(b);
    }
  }

  // ---- The loops ----

  function Where(certs: seq<Cert>, test: Cert -> bool): (r: seq<Cert>)
    ensures forall c :: c in r <==> c in certs && test(c)
    ensures DistinctFingerprints(certs) ==> DistinctFingerprints(r) && |r| <= |certs|
  {
    if certs == [] then []
    else
      var front := Where(certs[..|certs| - 1], test);
      assert forall i | 0 <= i < |front| :: front[i] in certs[..|certs| - 1];
      if test(certs[|certs| - 1]) then front + [certs[|certs| - 1]] else front
  }

  // The only verified parent of a certificate: none, one, or too many.
  datatype Found = Nobody | One(parent: Cert) | TooMany

  method FindParent(certs: seq<Cert>, child: Cert, signed: Signed) returns (found: Found)
    ensures match found
            case Nobody => Parents(SetOf(certs), child, signed) == {}
            case One(p) => Only(Parents(SetOf(certs), child, signed), p)
            case TooMany => forall p :: !Only(Parents(SetOf(certs), child, signed), p)
    ensures found.TooMany? ==> Parents(SetOf(certs), child, signed) != {}
  {
    found := Nobody;
    for i := 0 to |certs|
      invariant match found
                case Nobody => Parents(SetOf(certs[..i]), child, signed) == {}
                case One(p) => Only(Parents(SetOf(certs[..i]), child, signed), p)
                case TooMany => false
    {
      assert SetOf(certs[..i + 1]) == SetOf(certs[..i]) + {certs[i]};
      if certs[i] == child || !Names(child, certs[i]) || !signed(child, certs[i]) {
        assert Parents(SetOf(certs[..i + 1]), child, signed) == Parents(SetOf(certs[..i]), child, signed);
        continue;
      }
      assert Parents(SetOf(certs[..i + 1]), child, signed) == Parents(SetOf(certs[..i]), child, signed) + {certs[i]};
      if found.One? && found.parent != certs[i] {
        ghost var all := Parents(SetOf(certs), child, signed);
        assert found.parent in all && certs[i] in all;
        return TooMany;
      }
      found := One(certs[i]);
    }
    assert certs[..|certs|] == certs;
  }

  // What the walk still has to find, put after what it has found.
  ghost predicate Continues(whole: Option<seq<Cert>>, issuers: seq<Cert>, rest: Option<seq<Cert>>) {
    whole == if rest.None? then None else Some(issuers + rest.value)
  }

  /** The path walk: stops at a self-signed certificate or where no parent is supplied, refuses an
      ambiguous parent and a cycle. */
  method FindPath(certs: seq<Cert>, primary: Cert, signed: Signed) returns (path: Option<seq<Cert>>)
    requires primary in certs
    ensures path == Walk(SetOf(certs), primary, {primary}, signed)
  {
    hide Walk, Parents, Only, SelfSigned;
    ghost var all := SetOf(certs);
    var seen, current, issuers := {primary}, primary, [];
    ghost var whole := Walk(all, primary, {primary}, signed);
    assert whole.Some? ==> issuers + whole.value == whole.value;
    while true
      invariant seen <= all && current in seen
      invariant Continues(whole, issuers, Walk(all, current, seen, signed))
      decreases |all - seen|
    {
      if SelfSigned(current, signed) {
        WalkEnds(all, current, seen, signed);
        assert issuers + [] == issuers;
        return Some(issuers);
      }
      var found := FindParent(certs, current, signed);
      if found.Nobody? {
        WalkEnds(all, current, seen, signed);
        assert issuers + [] == issuers;
        return Some(issuers);
      }
      if found.TooMany? {
        WalkRefuses(all, current, seen, signed);
        return None;
      }
      var p := found.parent;
      WalkStep(all, current, seen, signed, p);
      if p in seen { return None; }
      Smaller(all, seen, p);
      Longer(whole, issuers, p, Walk(all, p, seen + {p}, signed));
      seen, issuers, current := seen + {p}, issuers + [p], p;
    }
  }

  lemma Longer(whole: Option<seq<Cert>>, issuers: seq<Cert>, p: Cert, rest: Option<seq<Cert>>)
    requires Continues(whole, issuers, if rest.None? then None else Some([p] + rest.value))
    ensures Continues(whole, issuers + [p], rest)
  {
    assert rest.Some? ==> issuers + ([p] + rest.value) == (issuers + [p]) + rest.value;
  }

  lemma WalkEnds(all: set<Cert>, current: Cert, seen: set<Cert>, signed: Signed)
    requires seen <= all && (SelfSigned(current, signed) || Parents(all, current, signed) == {})
    ensures Walk(all, current, seen, signed) == Some([])
  {
  }

  lemma WalkRefuses(all: set<Cert>, current: Cert, seen: set<Cert>, signed: Signed)
    requires seen <= all && !SelfSigned(current, signed) && Parents(all, current, signed) != {}
    requires forall p :: !Only(Parents(all, current, signed), p)
    ensures Walk(all, current, seen, signed).None?
  {
  }

  lemma WalkStep(all: set<Cert>, current: Cert, seen: set<Cert>, signed: Signed, p: Cert)
    requires seen <= all && !SelfSigned(current, signed) && Only(Parents(all, current, signed), p)
    ensures p in all
    ensures p in seen ==> Walk(all, current, seen, signed).None?
    ensures p !in seen ==>
              var rest := Walk(all, p, seen + {p}, signed);
              Walk(all, current, seen, signed) == if rest.None? then None else Some([p] + rest.value)
  {
    assert p in Parents(all, current, signed);
    assert forall q :: Only(Parents(all, current, signed), q) ==> q == p;
  }

  method CheckSibling(certs: seq<Cert>, c: Cert, primary: Cert, signed: Signed) returns (ok: bool)
    ensures ok == Sibling(SetOf(certs), c, primary, signed)
  {
    if c.ca || c.key != primary.key || c.issuer != primary.issuer { return false; }
    for j := 0 to |certs|
      invariant forall k | 0 <= k < j && certs[k] != c && certs[k].ca && Names(c, certs[k]) :: signed(c, certs[k])
    {
      if certs[j] != c && certs[j].ca && Names(c, certs[j]) && !signed(c, certs[j]) {
        assert certs[j] in SetOf(certs);
        return false;
      }
    }
    ok := true;
  }

  method FindSelected(certs: seq<Cert>, selected: string) returns (index: Option<Cert>)
    requires DistinctFingerprints(certs)
    ensures index.None? ==> forall c | c in certs :: c.fingerprint != selected
    ensures index.Some? ==> index.value in certs && index.value.fingerprint == selected
                            && forall c | c in certs && c.fingerprint == selected :: c == index.value
  {
    index := None;
    for i := 0 to |certs|
      invariant index.Some? ==> index.value in certs && index.value.fingerprint == selected
      invariant index.None? ==> forall k | 0 <= k < i :: certs[k].fingerprint != selected
    {
      if certs[i].fingerprint == selected { index := Some(certs[i]); }
    }
  }

  // The certificates a choice is made among.
  method ListChoices(certs: seq<Cert>) returns (choices: seq<Cert>)
    requires DistinctFingerprints(certs)
    ensures SetOf(choices) == Choices(SetOf(certs)) && DistinctFingerprints(choices)
  {
    ghost var all := SetOf(certs);
    var leaves, matching := Where(certs, (c: Cert) => !c.ca), Where(certs, (c: Cert) => !c.ca && c.matched);
    assert SetOf(leaves) == set c | c in all && !c.ca;
    assert SetOf(matching) == Matching(all);
    EmptySetOf(leaves);
    EmptySetOf(matching);
    var candidates := if |leaves| == 0 then certs else leaves;
    assert SetOf(candidates) == Candidates(all);
    choices := if |matching| != 0 then matching else candidates;
  }

  method Select(certs: seq<Cert>, hasKey: bool, selected: string) returns (v: Verdict, primary: Option<Cert>)
    requires DistinctFingerprints(certs)
    ensures match Choose(SetOf(certs), hasKey, selected)
            case NoChoice => primary.None? && v == Refused
            case Several(candidates) => primary.None? && v.Ask? && SetOf(v.candidates) == candidates
            case Chosen(c) => primary == Some(c) && c in certs
  {
    hide Choices, DistinctFingerprints;
    ghost var all := SetOf(certs);
    v, primary := Refused, None;
    if hasKey && exists c | c in certs :: c.ca && c.matched {
      assert exists c | c in all :: c.ca && c.matched;
      return;
    }
    var index;
    if selected == "" {
      var choices := ListChoices(certs);
      OnlyMeansOne(choices);
      if |choices| != 1 { return Ask(choices), None; }
      index := Some(choices[0]);
      assert forall c :: Only(Choices(all), c) ==> c == choices[0];
      assert choices[0] in Choices(all) && choices[0] in certs by { ChoicesAreSupplied(all, choices[0]); }
    } else {
      index := FindSelected(certs, selected);
    }
    if index.None? || (hasKey && index.value.ca) { return; }
    primary := index;
  }

  lemma ChoicesAreSupplied(all: set<Cert>, c: Cert)
    ensures c in Choices(all) ==> c in all
  {
  }

  lemma EmptySetOf(certs: seq<Cert>)
    ensures SetOf(certs) == {} <==> certs == []
  {
    if certs != [] { assert certs[0] in SetOf(certs); }
  }

  lemma OnlyMeansOne(certs: seq<Cert>)
    requires DistinctFingerprints(certs)
    ensures |certs| == 1 <==> exists c :: Only(SetOf(certs), c)
    ensures |certs| == 1 ==> Only(SetOf(certs), certs[0])
  {
    if |certs| == 1 {
      assert Only(SetOf(certs), certs[0]);
    } else {
      forall c ensures !Only(SetOf(certs), c) {
        if |certs| > 1 {
          assert certs[0] in SetOf(certs) && certs[1] in SetOf(certs);
        } else {
          assert c !in SetOf(certs);
        }
      }
    }
  }

  /** PrepareBundle: exactly the verdict on the set of certificates. */
  method PrepareBundle(certs: seq<Cert>, hasKey: bool, selected: string, signed: Signed) returns (v: Verdict)
    requires DistinctFingerprints(certs)
    ensures Accepts(SetOf(certs), hasKey, selected, signed, v)
    ensures v.Prepared? ==> v.bundle == certs
  {
    var primary;
    v, primary := Select(certs, hasKey, selected);
    if primary.None? { return; }
    var path := FindPath(certs, primary.value, signed);
    if path.None? { return Refused; }
    var bundle := [];
    for i := 0 to |certs|
      invariant bundle == certs[..i]
      invariant forall k | 0 <= k < i && certs[k] != primary.value
                && certs[k] !in path.value :: Sibling(SetOf(certs), certs[k], primary.value, signed)
    {
      if certs[i] != primary.value && certs[i] !in path.value {
        var ok := CheckSibling(certs, certs[i], primary.value, signed);
        if !ok {
          assert certs[i] in SetOf(certs);
          return Refused;
        }
      }
      bundle := bundle + [certs[i]];
    }
    assert bundle == certs;
    v := Prepared(primary.value, path.value, bundle);
  }
}
