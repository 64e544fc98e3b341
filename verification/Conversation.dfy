/**
 The rules of a conversation with the ACME server, told from its log alone: what the guarded
 transports may send, in which order, and what each event may rely on (RFC 8555 sections 6.5 and 7.4).
 */
module Conversation {
  import opened Common
  import opened AcmeWire

  datatype Kind =
    | DirectoryRead | NonceRead
    | OrderPost | AuthorizationPost | ChallengePost | FinalizePost | CertificatePost

  // What an operation put on the wire, made durable, looked at and allowed itself, in order.
  datatype Event =
    | Sent(kind: Kind, url: Url, nonce: string, body: Body)   // what left the process, the nonce it spent
    | Fetched(nonce: string)
    | Saved(order: Url)             // the checkpoint of a new order's address
    | Opened(kind: Kind)            // an answer's body was looked at and accepted or refused
    | Lent(challenges: set<Url>)    // challenge authority
    | Granted                       // finalize authority
    | Processed                     // finalize was answered: processing

  predicate IsPost(e: Event) { e.Sent? && e.kind !in {DirectoryRead, NonceRead} }

  // What an observer of the log remembers.
  datatype View = View(
    sends: nat, posted: set<Url>, held: string, asked: bool, ordered: bool, saved: Option<Url>,
    looked: bool, lent: set<Url>, granted: bool, finalized: bool, processing: bool)

  const NOTHING := View(0, {}, "", false, false, None, false, {}, false, false, false)

  function Watch(v: View, e: Event): View {
    match e
    case Sent(kind, url, _, _) =>
      var next := v.(sends := v.sends + 1, asked := kind == NonceRead);
      if !IsPost(e) then next
      else next.(posted := v.posted + {url}, held := "", ordered := v.ordered || kind == OrderPost,
                 finalized := v.finalized || kind == FinalizePost)
    case Fetched(nonce) => v.(held := nonce, asked := false)
    case Saved(order) => v.(saved := Some(order))
    case Opened(kind) => v.(looked := v.looked || kind == OrderPost)
    case Lent(challenges) => v.(lent := challenges)
    case Granted => v.(granted := true)
    case Processed => v.(processing := true)
  }

  function Observe(log: seq<Event>): View {
    if log == [] then NOTHING else Watch(Observe(log[..|log| - 1]), log[|log| - 1])
  }

  // account: who signs; target: where the order is asked for; creating: whether asking creates it;
  // csr: the one request that may be finalized.
  datatype Rules =
    | Preparing(account: string, target: Url, creating: bool, names: seq<string>, validation: bool)
    | Finalizing(account: string, target: Url, finalize: Url, csr: string, refresh: bool)

  function Limit(rules: Rules): nat {
    if rules.Finalizing? then 23 else if rules.validation then 35 else 19
  }

  predicate Creating(rules: Rules) { rules.Preparing? && rules.creating }

  // What a post may ask of its address: an order for exactly these names, a lent challenge's acceptance, a
  // certificate for the saved request, and otherwise just what is there.
  function Asking(v: View, kind: Kind, url: Url, rules: Rules): Payload {
    if kind == OrderPost && Creating(rules) then Identifiers(rules.names)
    else if kind == FinalizePost && rules.Finalizing? then Csr(rules.csr)
    else if rules.Preparing? && rules.validation && url in v.lent then AcceptChallenge
    else Empty
  }

  predicate LawfulPost(v: View, kind: Kind, url: Url, rules: Rules) {
    match kind
    case DirectoryRead | NonceRead => false
    case OrderPost => !v.ordered && url == rules.target
    case AuthorizationPost => v.looked && url.AuthzUrl? && !v.granted
    case ChallengePost => v.looked && url in v.lent && rules.Preparing? && rules.validation
    case FinalizePost => rules.Finalizing? && !rules.refresh && v.granted && !v.finalized && url == rules.finalize
    case CertificatePost => rules.Finalizing? && v.granted && url.CertUrl? && (rules.refresh || v.finalized)
  }

  /** May this event come next? */
  predicate Lawful(v: View, e: Event, rules: Rules) {
    && !v.processing
    && match e
       case Sent(kind, url, nonce, body) =>
         && v.sends < Limit(rules)
         && (match kind
             case DirectoryRead => v.sends == 0 && url == DirectoryUrl && body == NoBody
             case NonceRead => v.sends > 0 && v.held == "" && url == NonceUrl && body == NoBody
             case _ =>
               && LawfulPost(v, kind, url, rules) && nonce == v.held != "" && url !in v.posted
               && body == Signed(rules.account, nonce, url, Asking(v, kind, url, rules)))
       case Fetched(nonce) => v.asked && v.held == "" && nonce != ""
       case Saved(order) => Creating(rules) && v.ordered && v.saved.None? && !v.looked
       case Opened(kind) => kind == OrderPost ==> v.ordered && !v.looked && (Creating(rules) ==> v.saved.Some?)
       case Lent(challenges) =>
         && rules.Preparing? && rules.validation && v.lent == {} && |challenges| <= |rules.names|
         && forall u | u in challenges :: u.ChallengeUrl?
       case Granted => rules.Finalizing? && v.looked && !v.granted
       case Processed => v.finalized
  }

  predicate Legal(log: seq<Event>, rules: Rules) {
    log == [] || (Legal(log[..|log| - 1], rules) && Lawful(Observe(log[..|log| - 1]), log[|log| - 1], rules))
  }

  lemma Extend(log: seq<Event>, e: Event, rules: Rules)
    requires Legal(log, rules) && Lawful(Observe(log), e, rules)
    ensures Legal(log + [e], rules) && Observe(log + [e]) == Watch(Observe(log), e)
  {
    assert (log + [e])[..|log|] == log;
  }

  function WatchTail(v: View, tail: seq<Event>): View
    requires |tail| <= 2
  {
    if |tail| == 0 then v else if |tail| == 1 then Watch(v, tail[0]) else Watch(Watch(v, tail[0]), tail[1])
  }

  // ---- What the rules mean ----

  function Sends(log: seq<Event>): nat {
    if log == [] then 0 else Sends(log[..|log| - 1]) + if log[|log| - 1].Sent? then 1 else 0
  }

  predicate SentAs(e: Event, kind: Kind) { e.Sent? && e.kind == kind }

  // The nonce spent at k was fetched since the previous post, and by the latest fetch.
  predicate FreshlyFetched(log: seq<Event>, k: nat)
    requires k < |log| && log[k].Sent?
  {
    exists j | 0 <= j < k ::
      log[j] == Fetched(log[k].nonce) && forall m | j < m < k :: !IsPost(log[m]) && !log[m].Fetched?
  }

  // Acceptance authority for this address was lent before k.
  predicate LentBefore(log: seq<Event>, k: nat, url: Url)
    requires k <= |log|
  {
    exists j | 0 <= j < k :: log[j].Lent? && url in log[j].challenges
  }

  // What leaves the process at k: reads carry nothing; a post is signed by the account for its own address,
  // with the very nonce it spends, and asks for no more than its kind may.
  predicate SaysWhatItMay(log: seq<Event>, rules: Rules, k: nat)
    requires k < |log| && log[k].Sent?
  {
    var e := log[k];
    if !IsPost(e) then e.body == NoBody else
      && e.body.Signed? && e.body.kid == rules.account && e.body.nonce == e.nonce && e.body.url == e.url
      && match e.body.payload
         case Identifiers(names) => e.kind == OrderPost && Creating(rules) && names == rules.names
         case Csr(csr) => e.kind == FinalizePost && rules.Finalizing? && csr == rules.csr
         case AcceptChallenge =>
           && rules.Preparing? && rules.validation && LentBefore(log, k, e.url)
           && (e.kind == ChallengePost || (e.kind == OrderPost && !Creating(rules)))
         case Empty =>
           && (e.kind == AuthorizationPost || e.kind == CertificatePost || (e.kind == OrderPost && !Creating(rules)))
         case OtherPayload => false
  }

  /** What the event at k may rely on in what went before it. */
  predicate KeepsItsPromise(log: seq<Event>, rules: Rules, k: nat)
    requires k < |log|
  {
    var e := log[k];
    && (e.Sent? ==> SaysWhatItMay(log, rules, k))
    && (IsPost(e) ==> FreshlyFetched(log, k) && forall i | 0 <= i < k && IsPost(log[i]) :: log[i].url != e.url)
    && (SentAs(e, OrderPost) ==> e.url == rules.target && forall i | 0 <= i < k :: !SentAs(log[i], OrderPost))
    && (e == Opened(OrderPost) && Creating(rules) ==> exists j | 0 <= j < k :: log[j].Saved?)
    && (e.Saved? ==> Creating(rules) && forall i | 0 <= i < k :: !log[i].Saved?)
    && (SentAs(e, ChallengePost)
        ==> rules.Preparing? && rules.validation && exists j | 0 <= j < k :: log[j].Lent? && e.url in log[j].challenges)
    && (SentAs(e, FinalizePost) ==>
          && rules.Finalizing? && !rules.refresh && e.url == rules.finalize
          && Granted in log[..k] && forall i | 0 <= i < k :: !SentAs(log[i], FinalizePost))
    && (SentAs(e, CertificatePost) ==> Granted in log[..k])
    && Processed !in log[..k]
  }

  predicate LatestFetch(log: seq<Event>, j: nat, nonce: string)
  {
    && j < |log| && log[j] == Fetched(nonce)
    && forall m | j < m < |log| :: !IsPost(log[m]) && !log[m].Fetched?
  }

  lemma {:induction false} HeldWasFetched(log: seq<Event>, rules: Rules) returns (j: nat)
    requires Legal(log, rules) && Observe(log).held != ""
    ensures LatestFetch(log, j, Observe(log).held)
  {
    hide Lawful;
    var last := |log| - 1;
    if log[last].Fetched? {
      j := last;
    } else {
      hide Legal;
      assert Legal(log[..last], rules) && Observe(log[..last]).held == Observe(log).held && !IsPost(log[last]) by {
        StillHeld(log, rules);
      }
      j := HeldWasFetched(log[..last], rules);
      forall m | j < m < |log| ensures !IsPost(log[m]) && !log[m].Fetched? {
        if m < last { assert log[m] == log[..last][m]; }
      }
    }
  }

  lemma WatchHolds(v: View, e: Event)
    requires Watch(v, e).held != "" && !e.Fetched?
    ensures v.held == Watch(v, e).held && !IsPost(e)
  {
  }

  lemma StillHeld(log: seq<Event>, rules: Rules)
    requires Legal(log, rules) && log != [] && Observe(log).held != "" && !log[|log| - 1].Fetched?
    ensures Legal(log[..|log| - 1], rules) && Observe(log[..|log| - 1]).held == Observe(log).held
              && !IsPost(log[|log| - 1])
  {
    hide Lawful, Watch;
    WatchHolds(Observe(log[..|log| - 1]), log[|log| - 1]);
  }

  lemma {:induction false} PrefixIsLegal(log: seq<Event>, rules: Rules, k: nat)
    requires Legal(log, rules) && k < |log|
    ensures Legal(log[..k], rules) && Lawful(Observe(log[..k]), log[k], rules)
  {
    hide Lawful;
    if k < |log| - 1 {
      PrefixIsLegal(log[..|log| - 1], rules, k);
      assert log[..|log| - 1][..k] == log[..k];
    }
  }

  lemma WatchRemembers(v: View, e: Event, rules: Rules)
    requires Lawful(v, e, rules)
    ensures var w := Watch(v, e);
            && v.posted <= w.posted && (v.ordered ==> w.ordered) && (v.finalized ==> w.finalized)
                && (v.looked ==> w.looked)
            && (v.saved.Some? ==> w.saved == v.saved) && (v.granted ==> w.granted)
                && (v.lent != {} ==> w.lent == v.lent)
            && w.sends == v.sends + (if e.Sent? then 1 else 0) && (w.sends <= Limit(rules) || !e.Sent?)
            && (IsPost(e) ==> e.url in w.posted) && (SentAs(e, OrderPost) ==> w.ordered)
            && (SentAs(e, FinalizePost) ==> w.finalized) && (e == Opened(OrderPost) ==> w.looked)
            && (if e.Saved? then w.saved == Some(e.order) else w.saved == v.saved)
            && (w.granted ==> v.granted || e == Granted)
                && (if e.Lent? then w.lent == e.challenges else w.lent == v.lent)
            && w.processing == (v.processing || e == Processed)
  {
  }

  // Whatever happened is remembered.
  lemma {:induction false} Remembered(log: seq<Event>, rules: Rules, k: nat)
    requires Legal(log, rules) && k < |log|
    ensures var v := Observe(log);
            && (IsPost(log[k]) ==> log[k].url in v.posted)
            && (SentAs(log[k], OrderPost) ==> v.ordered)
            && (SentAs(log[k], FinalizePost) ==> v.finalized)
            && (log[k].Saved? ==> v.saved.Some?)
            && (log[k] == Processed ==> v.processing)
  {
    hide Watch, Lawful;
    var last := |log| - 1;
    WatchRemembers(Observe(log[..last]), log[last], rules);
    if k < last {
      Remembered(log[..last], rules, k);
    }
  }

  // Whatever is remembered happened.
  lemma {:induction false} Happened(log: seq<Event>, rules: Rules)
    requires Legal(log, rules)
    ensures var v := Observe(log);
            && (v.saved.Some? ==> Saved(v.saved.value) in log)
            && (v.granted ==> Granted in log)
            && (v.lent != {} ==> Lent(v.lent) in log)
            && v.sends == Sends(log) <= Limit(rules)
  {
    hide Watch, Lawful;
    if log != [] {
      var last := |log| - 1;
      WatchRemembers(Observe(log[..last]), log[last], rules);
      Happened(log[..last], rules);
      assert forall e | e in log[..last] :: e in log;
    }
  }

  /** In a legal log every event keeps its promise. */
  lemma PromisesAreKept(log: seq<Event>, rules: Rules, k: nat)
    requires Legal(log, rules) && k < |log|
    ensures KeepsItsPromise(log, rules, k)
  {
    hide Legal, Observe;
    PrefixIsLegal(log, rules, k);
    var before := log[..k];
    forall i | 0 <= i < k
      ensures before[i] == log[i]
      ensures IsPost(log[i]) ==> log[i].url in Observe(before).posted
      ensures SentAs(log[i], OrderPost) ==> Observe(before).ordered
      ensures SentAs(log[i], FinalizePost) ==> Observe(before).finalized
      ensures log[i].Saved? ==> Observe(before).saved.Some?
      ensures log[i] == Processed ==> Observe(before).processing
    {
      Remembered(before, rules, i);
    }
    Happened(before, rules);
    if IsPost(log[k]) {
      var j := HeldWasFetched(before, rules);
      assert log[j] == Fetched(log[k].nonce);
    }
    if log[k] == Opened(OrderPost) && Creating(rules) {
      var j :| 0 <= j < k && before[j] == Saved(Observe(before).saved.value);
      assert log[j].Saved?;
    }
    if Observe(before).lent != {} {
      var j :| 0 <= j < k && before[j] == Lent(Observe(before).lent);
      assert log[j] == Lent(Observe(before).lent);
      PrefixIsLegal(log, rules, j);
    }
  }

  // ---- Counting addresses ----

  function Set(s: seq<Url>): set<Url> { set u | u in s }

  lemma {:induction false} SetIsSmall(s: seq<Url>)
    ensures |Set(s)| <= |s|
  {
    if s != [] {
      SetIsSmall(s[1..]);
      assert Set(s) == {s[0]} + Set(s[1..]);
    }
  }

  lemma SubsetIsSmaller(a: set<Url>, b: set<Url>)
    requires a <= b
    ensures |a| <= |b| && (a != b ==> |a| < |b|)
  {
    assert b == a + (b - a);
  }
}
