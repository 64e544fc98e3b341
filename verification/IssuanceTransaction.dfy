/**
 Issuance across crashes (runStagingCertificate in internal/instanceaccess/acme_certificate_linux.go,
 BeginStagingIssuance, WithStagingIssuance, ObserveStagingIssuance and ConstrainStagingIssuance in
 internal/inventorystore/issuance.go): one durable intent, one lease that may finalize, any number of
 later leases that only read, and a deadline that only comes closer.

 One step is one replacement of the stored file, one action of the running operation or one other
 writer; an operation can end between any two steps.
 */
module IssuanceTransaction {
  import opened Common
  import opened AcmeWire
  import opened Conversation
  import opened CertificateTransport
  import opened CertificateRuns

  // expires 0 stands for an older image that has no deadline of its own; seen is the last observation
  // saved, der the chain saved with its pair.
  datatype Durable =
    | NoOrder
    | Verified(job: Job, orderExpires: Stamp)
    | Issuing(job: Job, orderExpires: Stamp, expires: Stamp, startedAt: Stamp, checkedAt: Stamp, seen: Option<Status>)
    | Issued(job: Job, orderExpires: Stamp, expires: Stamp, savedAt: Stamp, der: seq<string>)

  datatype Outcome = NotReplaced | Uncertain | Replaced

  // Leased: the intent is durable and the single-use lease is minted but not yet lent.
  datatype Process =
    | Idle
    | Leased(refresh: bool)
    | Running(start: Guard, session: Session, segment: seq<Event>)

  // log: everything since the issuance began; begun counts the issuances.
  datatype System = System(durable: Durable, process: Process, log: seq<Event>, begun: nat)

  datatype Receipt = Received(der: seq<string>) | Observed(status: Status)

  // What the client returns of its conversation: a processing answer stops it, a refresh of an order that
  // is not yet valid ends with its status, and otherwise only a fetched certificate is a result.
  function Observation(s: Session): Option<Receipt> {
    if s.closed then None
    else if s.guard.stage.processing then Some(Observed(Processing))
    else if s.guard.failed then None
    else if s.guard.job.refresh && s.status.Some? && s.status != Some(Valid) then Some(Observed(s.status.value))
    else if s.guard.stage.fetched then Some(Received(s.chain))
    else None
  }

  datatype Step =
    | VerifyOrder(job: Job, orderExpires: Stamp)   // a newly verified order, nothing issued for it
    | Begin(now: Stamp, outcome: Outcome)
    | Refresh(now: Stamp)
    | Lend(now: Stamp)
    | Proceed(action: CertificateRuns.Action)
    // The clock at each check from the client's last one on; accepted: the chain passed verification
    // against the saved key and request.
    | Conclude(accepted: bool, returned: Stamp, checked: Stamp, constrained: Stamp, at: Stamp, final: Stamp,
        outcome: Outcome)
    | End
    | CloseRequest

  const EMPTY := System(NoOrder, Idle, [], 0)

  // The deadline in force.
  function Bound(d: Durable): Stamp
    requires d.Issuing? || d.Issued?
  {
    if d.expires != NONE then Earlier(d.orderExpires, d.expires) else d.orderExpires
  }

  // now is a canonical stamp, not behind the intent and before every deadline.
  predicate Current(d: Durable, now: Stamp)
    requires d.Issuing?
  {
    && IsTime(now) && d.startedAt <= now && d.checkedAt <= now && now < Bound(d)
  }

  function LeaseGuard(d: Durable, refresh: bool): Guard
    requires d.Issuing?
  {
    Fresh(d.job.(refresh := refresh), Bound(d))
  }

  // What a conversation may publish: never past the deadline it was lent under or the one it ended with.
  predicate Publishable(s: System, e: Step)
    requires e.Conclude?
  {
    && s.durable.Issuing? && s.process.Running?
    && var receipt, expires := Observation(s.process.session), s.process.session.guard.terms.expires;
    && receipt.Some? && IsTime(expires) && expires <= s.process.start.terms.expires
    && e.returned < expires && e.checked < expires && e.final < expires
    && expires <= Bound(s.durable) && e.constrained < expires
    && e.constrained >= s.durable.startedAt && e.constrained >= s.durable.checkedAt
    && IsTime(e.at) && s.durable.startedAt <= e.at < Earlier(s.durable.orderExpires, expires)
    && s.durable.checkedAt <= e.at <= e.final
    && match receipt.value
       case Received(der) => e.accepted && 1 <= |der| <= 5
       case Observed(status) =>
         && status in {Status.Pending, Ready, Processing, Invalid}
         && (!s.process.start.job.refresh ==> status == Processing)
  }

  // What is saved of a conversation.
  function Published(s: System, e: Step): Durable
    requires e.Conclude? && Publishable(s, e)
  {
    var expires := s.process.session.guard.terms.expires;
    match Observation(s.process.session).value
    case Received(der) => Issued(s.durable.job, s.durable.orderExpires, expires, e.at, der)
    case Observed(status) => s.durable.(expires := expires, checkedAt := e.at, seen := Some(status))
  }

  function Apply(s: System, e: Step): System {
    match e
    case VerifyOrder(job, orderExpires) =>
      if !s.process.Idle? || !s.durable.NoOrder? then s
          else s.(durable := Verified(job.(refresh := false), orderExpires))
    case Begin(now, outcome) =>
      if !s.process.Idle? || !s.durable.Verified? || !IsTime(now) || now >= s.durable.orderExpires
          || outcome == NotReplaced then s else
      s.(durable := Issuing(s.durable.job, s.durable.orderExpires, s.durable.orderExpires, now, NONE, None),
         process := if outcome == Replaced then Leased(false) else Idle, log := [], begun := s.begun + 1)
    case Refresh(now) =>
      if !s.process.Idle? || !s.durable.Issuing? || !Current(s.durable, now) then s else s.(process := Leased(true))
    case Lend(now) =>
      if !s.process.Leased? || !s.durable.Issuing? then s
      else if !Current(s.durable, now) then s.(process := Idle)
      else
        var g := LeaseGuard(s.durable, s.process.refresh);
        s.(process := Running(g, CertificateRuns.Begin(g), []))
    case Proceed(action) =>
      if !s.process.Running? then s else
      var (session, more) := Act(s.process.session, action);
      s.(process := s.process.(session := session, segment := s.process.segment + more), log := s.log + more)
    case Conclude(_, _, _, _, _, _, outcome) =>
      if !s.process.Running? then s
      else if !Publishable(s, e) || outcome == NotReplaced then s.(process := Idle)
      else s.(process := Idle, durable := Published(s, e))
    case End => s.(process := Idle)
    case CloseRequest =>
      if !s.process.Idle? || s.durable.NoOrder? then s else s.(durable := NoOrder)
  }

  function Run(s: System, steps: seq<Step>): System {
    if steps == [] then s else Apply(Run(s, steps[..|steps| - 1]), steps[|steps| - 1])
  }

  // ---- What every step keeps ----

  /** Of everything sent since the issuance began, at most one request finalizes. */
  predicate FinalizedOnce(log: seq<Event>) {
    forall i, j | 0 <= i < j < |log| && SentAs(log[i], FinalizePost) :: !SentAs(log[j], FinalizePost)
  }

  predicate NeverFinalizes(log: seq<Event>) { forall e | e in log :: !SentAs(e, FinalizePost) }

  ghost predicate RunningInv(s: System)
    requires s.process.Running?
  {
    var p := s.process;
    && Sound(p.start, p.session, p.segment) && s.durable.Issuing?
    && p.start == LeaseGuard(s.durable, p.start.job.refresh)
    && |p.segment| <= |s.log| && s.log[|s.log| - |p.segment|..] == p.segment
    && (!p.start.job.refresh ==> s.log == p.segment)
    && ChainShown(p.session, p.segment)
  }

  // A certificate of the accepted size was asked for under authority, answered and read since the issuance began.
  predicate Delivered(der: seq<string>, log: seq<Event>) {
    && GoodChain(der) && Granted in log && Opened(CertificatePost) in log
    && exists k | 0 <= k < |log| :: SentAs(log[k], CertificatePost)
  }

  ghost predicate Inv(s: System) {
    && FinalizedOnce(s.log)
    && (s.durable.Issued? ==> Delivered(s.durable.der, s.log))
    && (s.durable.Issuing? || s.durable.Issued? ==> NONE < s.durable.expires <= s.durable.orderExpires)
    && (s.process.Leased? ==> s.durable.Issuing? && (!s.process.refresh ==> s.log == []))
    && (s.process.Running? ==> RunningInv(s))
  }

  lemma SegmentFinalizes(start: Guard, session: Session, segment: seq<Event>)
    requires Sound(start, session, segment)
    ensures FinalizedOnce(segment) && (start.job.refresh ==> NeverFinalizes(segment))
  {
    hide Tracks, Budget, Legal, Observe, FreshlyFetched, Looping;
    forall k | 0 <= k < |segment|
      ensures SentAs(segment[k], FinalizePost) ==>
                !start.job.refresh && forall i | 0 <= i < k :: !SentAs(segment[i], FinalizePost)
    {
      PromisesAreKept(segment, CertificateTransport.RulesOf(start), k);
    }
  }

  lemma ReadsFollow(base: seq<Event>, segment: seq<Event>)
    requires FinalizedOnce(base) && NeverFinalizes(segment)
    ensures FinalizedOnce(base + segment)
  {
    var log := base + segment;
    forall i, j | 0 <= i < j < |log| && SentAs(log[i], FinalizePost) ensures !SentAs(log[j], FinalizePost) {
      if j >= |base| { assert log[j] in segment; }
    }
  }

  // One action of a sound operation: still sound, and its log still finalizes at most once.
  lemma ActionKeepsSound(p: Process, a: CertificateRuns.Action)
    requires p.Running? && Sound(p.start, p.session, p.segment) && ChainShown(p.session, p.segment)
    ensures var (session, more) := Act(p.session, a);
            && Sound(p.start, session, p.segment + more) && ChainShown(session, p.segment + more)
            && FinalizedOnce(p.segment + more) && (p.start.job.refresh ==> NeverFinalizes(p.segment + more))
  {
    hide Act, FinalizedOnce, NeverFinalizes, Conforms, Looping, ChainShown;
    ActShowsChain(p.session, p.segment, a);
    ActConforms(p.start, p.session, p.segment, a);
    ActKeepsLooping(p.session, a);
    SegmentFinalizes(p.start, Act(p.session, a).0, p.segment + Act(p.session, a).1);
  }

  // What a segment at the end of the log adds to it.
  lemma LogFinalizes(log: seq<Event>, segment: seq<Event>, more: seq<Event>)
    requires FinalizedOnce(log) && NeverFinalizes(segment + more)
    requires |segment| <= |log| && log[|log| - |segment|..] == segment
    ensures FinalizedOnce(log + more)
  {
    hide FinalizedOnce, NeverFinalizes;
    var base := log[..|log| - |segment|];
    PrefixFinalizes(log, |log| - |segment|);
    ReadsFollow(base, segment + more);
    assert log + more == base + (segment + more);
  }

  lemma SuffixGrows(log: seq<Event>, segment: seq<Event>, more: seq<Event>)
    requires |segment| <= |log| && log[|log| - |segment|..] == segment
    ensures var all := log + more; |segment + more| <= |all| && all[|all| - |segment + more|..] == segment + more
  {
  }

  lemma ProceedKeepsInv(s: System, a: CertificateRuns.Action)
    requires Inv(s) && s.process.Running?
    ensures Inv(Apply(s, Proceed(a)))
  {
    hide Act, FinalizedOnce, NeverFinalizes, Sound, ChainShown, Delivered;
    var p := s.process;
    var more := Act(p.session, a).1;
    ActionKeepsSound(p, a);
    SuffixGrows(s.log, p.segment, more);
    if p.start.job.refresh { LogFinalizes(s.log, p.segment, more); }
  }

  lemma PrefixFinalizes(log: seq<Event>, n: nat)
    requires FinalizedOnce(log) && n <= |log|
    ensures FinalizedOnce(log[..n])
  {
  }

  lemma LendKeepsInv(s: System, e: Step)
    requires Inv(s) && e.Lend? && s.process.Leased? && Current(s.durable, e.now)
    ensures Inv(Apply(s, e))
  {
    hide FinalizedOnce, Conforms, Looping, Delivered;
    StartIsSound(LeaseGuard(s.durable, s.process.refresh));
  }

  lemma ConcludeKeepsInv(s: System, e: Step)
    requires Inv(s) && e.Conclude?
    ensures Inv(Apply(s, e))
  {
    hide FinalizedOnce, Sound, Delivered, ChainShown;
    if s.process.Running? && Publishable(s, e) && Published(s, e).Issued? {
      FetchedIsDelivered(s);
    }
  }

  lemma FetchedIsDelivered(s: System)
    requires Inv(s) && s.process.Running? && s.process.session.guard.stage.fetched
    ensures Delivered(s.process.session.chain, s.log)
  {
    hide FinalizedOnce, Sound, GoodChain;
    var p, n := s.process, |s.log| - |s.process.segment|;
    FetchedWithAuthority(p.start, p.session, p.segment);
    assert s.log[n..] == p.segment;
    assert forall e | e in p.segment :: e in s.log;
    var k :| 0 <= k < |p.segment| && SentAs(p.segment[k], CertificatePost);
    assert s.log[n + k] == p.segment[k];
  }

  lemma OthersKeepInv(s: System, e: Step)
    requires Inv(s) && !(e.Proceed? && s.process.Running?) && !e.Conclude?
    requires !(e.Lend? && s.process.Leased? && Current(s.durable, e.now))
    ensures Inv(Apply(s, e))
  {
    hide FinalizedOnce, Sound, Current, Delivered, ChainShown;
    assert e.Begin? ==> FinalizedOnce([]) by { NothingFinalized(); }
  }

  lemma ApplyKeepsInv(s: System, e: Step)
    requires Inv(s)
    ensures Inv(Apply(s, e))
  {
    assert s.process.Leased? ==> s.durable.Issuing?;
    hide Inv, Apply, Current;
    if e.Proceed? && s.process.Running? {
      ProceedKeepsInv(s, e.action);
    } else if e.Lend? && s.process.Leased? && Current(s.durable, e.now) {
      LendKeepsInv(s, e);
    } else if e.Conclude? {
      ConcludeKeepsInv(s, e);
    } else {
      OthersKeepInv(s, e);
    }
  }

  lemma NothingFinalized()
    ensures FinalizedOnce([])
  {
  }

  /** Over every history of operations, crashes, uncertain replacements and server answers, an issuance
      is finalized at most once. */
  lemma {:induction false} EveryIssuanceIsFinalizedOnce(steps: seq<Step>)
    ensures Inv(Run(EMPTY, steps)) && FinalizedOnce(Run(EMPTY, steps).log)
  {
    if steps != [] {
      hide Apply;
      EveryIssuanceIsFinalizedOnce(steps[..|steps| - 1]);
      ApplyKeepsInv(Run(EMPTY, steps[..|steps| - 1]), steps[|steps| - 1]);
    }
  }

  /** Over every history, an issued certificate was asked for under authority, delivered and read in a
      conversation of that issuance. */
  lemma EveryCertificateWasDelivered(steps: seq<Step>)
    ensures Run(EMPTY, steps).durable.Issued? ==> Delivered(Run(EMPTY, steps).durable.der, Run(EMPTY, steps).log)
  {
    hide Run, Delivered, FinalizedOnce;
    EveryIssuanceIsFinalizedOnce(steps);
  }

  /** A store becomes issued only by saving the very chain its conversation fetched, once it passed
      verification; a conversation that fetched nothing publishes at most an order's status. */
  lemma OnlyFetchedChainsAreIssued(s: System, e: Step)
    requires Inv(s)
    ensures Apply(s, e).durable.Issued? && !s.durable.Issued? ==>
              && e.Conclude? && e.accepted && s.process.Running? && s.process.session.guard.stage.fetched
              && Apply(s, e).durable.der == s.process.session.chain
  {
    hide Act, FinalizedOnce, Sound, Delivered, ChainShown;
  }

  // The same issuance, or none yet begun after it.
  predicate Tightened(d: Durable, begun: nat, later: System) {
    later.begun == begun && (later.durable.Issuing? || later.durable.Issued?) ==>
      (d.Issuing? || d.Issued?) && later.durable.expires <= d.expires && later.durable.orderExpires == d.orderExpires
  }

  /** Within one issuance the deadline only comes closer, whatever the server reports. */
  lemma {:induction false} DeadlineOnlyComesCloser(s: System, steps: seq<Step>)
    requires Inv(s) && (s.durable.Issuing? || s.durable.Issued?)
    ensures Run(s, steps).begun >= s.begun && Inv(Run(s, steps)) && Tightened(s.durable, s.begun, Run(s, steps))
  {
    if steps != [] {
      hide Apply, Inv;
      DeadlineOnlyComesCloser(s, steps[..|steps| - 1]);
      var before := Run(s, steps[..|steps| - 1]);
      ApplyKeepsInv(before, steps[|steps| - 1]);
      ApplyTightens(s.durable, s.begun, before, steps[|steps| - 1]);
    }
  }

  lemma ApplyTightens(d: Durable, begun: nat, s: System, e: Step)
    requires Inv(s) && s.begun >= begun && Tightened(d, begun, s)
    ensures Apply(s, e).begun >= begun && Tightened(d, begun, Apply(s, e))
  {
    hide Act, FinalizedOnce, Sound, Delivered, ChainShown;
  }

  /** A lease to finalize exists only in the operation that made the intent durable: a restarted process,
      a refresh and an intent of unknown outcome can only read. */
  lemma OnlyTheCommittingOperationFinalizes(s: System, e: Step)
    requires Inv(s)
    ensures Apply(s, e).process == Leased(false) && s.process != Leased(false) ==>
              e.Begin? && e.outcome == Replaced && s.durable.Verified? && Apply(s, e).durable.Issuing?
                  && Apply(s, e).log == []
    ensures e.Lend? && Apply(s, e).process.Running? && !Apply(s, e).process.start.job.refresh ==>
              s.process == Leased(false) || s.process.Running?
  {
    hide Act, FinalizedOnce, Sound, Delivered, ChainShown;
  }

  // The clock is a time within the order's and the issuance's own deadline, and behind nothing on record.
  predicate Within(d: Durable, now: Stamp)
    requires d.Issuing?
  {
    && YEAR_2020 <= now < YEAR_10000 && d.startedAt <= now && d.checkedAt <= now
    && now < d.orderExpires && (d.expires != NONE ==> now < d.expires)
  }

  /** An issuance begins only for a verified order before its deadline, a lease is lent only within both
      deadlines, and each does whenever that is so; the conversation is held to the closer deadline. */
  lemma LeasesAreLentExactly(s: System, e: Step)
    requires Inv(s)
    ensures e.Begin? ==>
              (Apply(s, e) != s <==>
                 s.process.Idle? && s.durable.Verified? && YEAR_2020 <= e.now < YEAR_10000
                 && e.now < s.durable.orderExpires && e.outcome != NotReplaced)
              && (Apply(s, e) != s ==>
                    Apply(s, e).durable == Issuing(s.durable.job, s.durable.orderExpires, s.durable.orderExpires, e.now,
                                                   NONE, None)
                    && Apply(s, e).process == if e.outcome == Replaced then Leased(false) else Idle)
    ensures e.Refresh? && s.process.Idle? ==>
              (Apply(s, e).process == Leased(true) <==> s.durable.Issuing? && Within(s.durable, e.now))
              && Apply(s, e).durable == s.durable
    ensures e.Lend? && s.process.Leased? ==>
              && (Apply(s, e).process.Running? <==> Within(s.durable, e.now))
              && Apply(s, e).durable == s.durable && !Apply(s, e).process.Leased?
              && (Apply(s, e).process.Running? ==>
                    && var g := Apply(s, e).process.start;
                    && g.job == s.durable.job.(refresh := s.process.refresh) && g.stage.directory == g.failed == false
                    && g.terms.expires <= s.durable.orderExpires
                    && (s.durable.expires != NONE ==> g.terms.expires <= s.durable.expires)
                    && g.terms.expires in {s.durable.orderExpires, s.durable.expires})
  {
    hide FinalizedOnce, Sound, Delivered, ChainShown, CertificateRuns.Act;
  }

  // What a conversation showed: a client that returned, its transport unbroken but for a processing answer.
  predicate ShowedStatus(c: Session, status: Status) {
    && !c.closed
    && if c.guard.stage.processing then status == Processing
       else !c.guard.failed && c.guard.job.refresh && c.status == Some(status) && status != Valid
  }

  predicate ShowedChain(c: Session, der: seq<string>) {
    && !c.closed && !c.guard.failed && !c.guard.stage.processing && c.guard.stage.fetched && der == c.chain
    && (c.guard.job.refresh && c.status.Some? ==> c.status.value == Valid)
  }

  // All the clock readings of a publication lie before the deadline the conversation ended with, and the one
  // that is saved is behind nothing on record.
  predicate InTime(d: Durable, e: Step, expires: Stamp)
    requires d.Issuing? && e.Conclude?
  {
    && YEAR_2020 <= expires < YEAR_10000 && expires <= d.orderExpires && (d.expires != NONE ==> expires <= d.expires)
    && e.returned < expires && e.checked < expires && e.constrained < expires && e.at < expires && e.final < expires
    && d.startedAt <= e.constrained && d.checkedAt <= e.constrained
    && YEAR_2020 <= e.at && d.startedAt <= e.at && d.checkedAt <= e.at && e.at <= e.final
  }

  /** A certificate is published if and only if the conversation fetched that very chain, it passed
      verification and every clock reading lies before the deadline; a status if and only if the
      conversation showed it, processing alone unless it only read; what is saved carries the conversation's
      own deadline, and otherwise the stored issuance stays as it was. */
  lemma PublicationsAreExact(s: System, e: Step)
    requires Inv(s) && e.Conclude? && s.process.Running? && e.outcome != NotReplaced
    ensures var c, d, d' := s.process.session, s.durable, Apply(s, e).durable;
            var expires := c.guard.terms.expires;
            var timely := expires <= s.process.start.terms.expires && InTime(d, e, expires);
            && (forall der :: d' == Issued(d.job, d.orderExpires, expires, e.at, der) <==>
                  timely && ShowedChain(c, der) && e.accepted && 1 <= |der| <= 5)
            && (forall status :: timely && ShowedStatus(c, status) && Reportable(s, status) ==>
                  d' == d.(expires := expires, checkedAt := e.at, seen := Some(status)))
            && (d' != d ==>
                  || d'.Issued?
                  || (timely && d'.Issuing? && d'.seen.Some?
                      && ShowedStatus(c, d'.seen.value) && Reportable(s, d'.seen.value)))
            && Apply(s, e).process == Idle
  {
    RunningIsIssuing(s);
    hide Inv, Publishable, Observation, ShowedStatus, ShowedChain, InTime, Reportable;
    var c := s.process.session;
    forall receipt ensures Observation(c) == Some(receipt) <==> Showed(c, receipt) {
      ObservationShows(c, receipt);
    }
    PublishableExactly(s, e);
  }

  predicate Showed(c: Session, receipt: Receipt) {
    match receipt
    case Received(der) => ShowedChain(c, der)
    case Observed(status) => ShowedStatus(c, status)
  }

  lemma RunningIsIssuing(s: System)
    requires Inv(s) && s.process.Running?
    ensures s.durable.Issuing?
  {
  }

  lemma ObservationShows(c: Session, receipt: Receipt)
    ensures Observation(c) == Some(receipt) <==> Showed(c, receipt)
  {
  }

  lemma PublishableExactly(s: System, e: Step)
    requires Inv(s) && e.Conclude? && s.process.Running?
    ensures var expires := s.process.session.guard.terms.expires;
            Publishable(s, e) <==>
              && expires <= s.process.start.terms.expires && InTime(s.durable, e, expires)
              && Observation(s.process.session).Some?
              && match Observation(s.process.session).value
                 case Received(der) => e.accepted && 1 <= |der| <= 5
                 case Observed(status) => Reportable(s, status)
  {
    hide FinalizedOnce, Sound, Delivered, ChainShown, Observation;
    ObservationIsOfItsKind(s);
  }

  // A status other than processing is reported only by a refresh, and a valid order is no status.
  lemma ObservationIsOfItsKind(s: System)
    requires Inv(s) && s.process.Running?
    ensures var o := Observation(s.process.session);
            o.Some? && o.value.Observed? && !s.process.start.job.refresh ==> o.value.status == Processing
  {
    hide FinalizedOnce, Delivered, ChainShown, Sound;
    JobStays(s);
  }

  // A status that a conversation may report: processing, or what a refresh read.
  predicate Reportable(s: System, status: Status)
    requires s.process.Running?
  {
    status == Processing || (s.process.start.job.refresh && status in {Status.Pending, Ready, Invalid})
  }

  lemma JobStays(s: System)
    requires Inv(s) && s.process.Running?
    ensures s.process.session.guard.job == s.process.start.job
  {
    hide Budget, Legal, Observe, Looping, FinalizedOnce, Delivered, ChainShown;
  }

  // ---- The operation as it runs ----

  function Drive(s: System, actions: seq<CertificateRuns.Action>): System {
    if actions == [] then s else Apply(Drive(s, actions[..|actions| - 1]), Proceed(actions[|actions| - 1]))
  }

  // One operation: intent or refresh, lease, any conversation, one publication.
  function Operation(s: System, first: Step, lent: Stamp, actions: seq<CertificateRuns.Action>, last: Step): System {
    var leased := Apply(s, first);
    if !leased.process.Leased? then leased else Apply(Drive(Apply(leased, Lend(lent)), actions), last)
  }

  class Store {
    var durable: Durable
    var process: Process
    var begun: nat
    ghost var log: seq<Event>

    ghost function State(): System
      reads this
    { System(durable, process, log, begun) }

    constructor ()
      ensures State() == EMPTY
    {
      durable, process, begun := NoOrder, Idle, 0;
      log := [];
    }

    method Open(refresh: bool, now: Stamp, outcome: Outcome) returns (ok: bool)
      requires process.Idle?
      modifies this
      ensures State() == Apply(old(State()), if refresh then Refresh(now) else Begin(now, outcome))
      ensures ok == process.Leased? && (process.Idle? || process.Leased?) && (ok ==> durable.Issuing?)
    {
      ok := false;
      if refresh {
        if !durable.Issuing? || !Current(durable, now) { return; }
        process := Leased(true);
      } else {
        if !durable.Verified? || !IsTime(now) || now >= durable.orderExpires || outcome == NotReplaced { return; }
        durable := Issuing(durable.job, durable.orderExpires, durable.orderExpires, now, NONE, None);
        log, begun := [], begun + 1;
        if outcome == Uncertain { return; }
        process := Leased(false);
      }
      ok := true;
    }

    method Forward(action: CertificateRuns.Action)
      requires process.Running?
      modifies this
      ensures State() == Apply(old(State()), Proceed(action)) && process.Running?
    {
      var (session, more) := CertificateRuns.Act(process.session, action);
      process := process.(session := session, segment := process.segment + more);
      log := log + more;
    }

    method Publish(e: Step)
      requires process.Running? && e.Conclude?
      modifies this
      ensures State() == Apply(old(State()), e) && process.Idle?
    {
      if Publishable(System(durable, process, [], begun), e) && e.outcome != NotReplaced {
        PublishableIgnoresLog(System(durable, process, [], begun), State(), e);
        var expires := process.session.guard.terms.expires;
        match Observation(process.session).value {
          case Received(der) =>
            durable := Issued(durable.job, durable.orderExpires, expires, e.at, der);
          case Observed(status) =>
            durable := durable.(expires := expires, checkedAt := e.at, seen := Some(status));
        }
      } else {
        PublishableIgnoresLog(System(durable, process, [], begun), State(), e);
      }
      process := Idle;
    }

    /** runStagingCertificate: one lock around intent, lease, conversation and publication. */
    method RunCertificate(refresh: bool, now: Stamp, begin: Outcome, lent: Stamp, actions: seq<CertificateRuns.Action>,
                          last: Step)
      requires process.Idle? && last.Conclude?
      modifies this
      ensures process.Idle?
      ensures State() == Operation(old(State()), if refresh then Refresh(now)
                else Begin(now, begin), lent, actions, last)
    {
      hide Apply;
      var ok := Open(refresh, now, begin);
      if !ok { return; }
      ghost var leased := State();
      Lending(lent);
      ghost var running := State();
      if process.Idle? {
        IdleStaysIdle(running, actions, last);
        return;
      }
      for i := 0 to |actions|
        invariant process.Running? && State() == Drive(running, actions[..i])
      {
        Forward(actions[i]);
        assert actions[..i + 1][..i] == actions[..i];
      }
      assert actions[..|actions|] == actions;
      Publish(last);
    }

    // The lease is consumed whether or not the clock still allows the call.
    method Lending(lent: Stamp)
      requires process.Leased? && durable.Issuing?
      modifies this
      ensures State() == Apply(old(State()), Lend(lent))
      ensures process.Idle? || process.Running?
    {
      if Current(durable, lent) {
        var g := LeaseGuard(durable, process.refresh);
        process := Running(g, CertificateRuns.Begin(g), []);
      } else {
        process := Idle;
      }
    }
  }

  lemma PublishableIgnoresLog(a: System, b: System, e: Step)
    requires e.Conclude? && a.durable == b.durable && a.process == b.process
    ensures Publishable(a, e) == Publishable(b, e)
  {
  }

  lemma {:induction false} IdleStaysIdle(s: System, actions: seq<CertificateRuns.Action>, last: Step)
    requires s.process.Idle? && last.Conclude?
    ensures Apply(Drive(s, actions), last) == s && Drive(s, actions) == s
  {
    if actions != [] {
      IdleStaysIdle(s, actions[..|actions| - 1], last);
    }
  }
}
