/**
 Ordering across crashes (runStagingOrder in internal/instanceaccess/acme_order_linux.go, the order
 writers of internal/inventorystore/orders.go): a durable intent, then at most one request that
 creates an order, its address durable before anything of the answer is read, and reads only after.

 One step is one replacement of the stored file, one round trip or one other writer. The lock is
 exclusive, so other writers run only while no order operation does; an operation can end between
 any two steps, which stands for a refusal, a revoked permission and a crash alike. An operation that
 failed may end by saving a provider wait (saveCAFailureWait in provider_wait_linux.go), which replaces
 the stored file by the image the operation holds, without reading the file again.
 */
module OrderTransaction {
  import opened Common
  import opened AcmeWire
  import opened Conversation
  import opened OrderTransport
  import opened OrderRuns
  import StoreReserve

  // The order as it is stored.
  datatype Durable = Durable(state: StoreReserve.OrderState, url: Option<Url>)

  // A replacement of the stored file: not made, made but reported as uncertain, or made.
  datatype Outcome = NotReplaced | Uncertain | Replaced

  // The operation holding the lock: its transport, what the transport has logged, the checkpoint's guard,
  // and the order in the image it holds, which only a replacement known to be made brings up to date.
  datatype Process =
    | Idle
    | Running(start: Guard, guard: Guard, segment: seq<Event>, checkpointed: bool, held: Durable)

  // log: everything since the latest committed intent; past: the same for earlier intents.
  datatype System = System(durable: Durable, process: Process, log: seq<Event>, past: seq<seq<Event>>)

  datatype Step =
    | BeginOrder(account: string, names: seq<string>, outcome: Outcome)
    | Resume(account: string, names: seq<string>)
    | Exchange(turn: Turn, outcome: Outcome)
    | Prepare(url: Url, outcome: Outcome)     // save the instructions and end
    | SaveWait(outcome: Outcome)              // save a provider wait after a failure and end
    | End
    | Acknowledge
    | BeginValidation(refresh: bool)
    | FinishValidation(verdict: StoreReserve.OrderState)
    | Close

  // A committed intent without an address.
  const PENDING := Durable(StoreReserve.RequestPending, None)

  const EMPTY := System(Durable(StoreReserve.NotStarted, None), Idle, [], [])

  // The address of a new order in an answer, when the transport accepts it.
  function NewAddress(g: Guard, t: Turn): Option<Url> {
    if g.failed || !t.entry || g.requests >= Limit(RulesOf(g)) || !t.request.plain || !t.send || t.answer.None?
        || !t.received
    then None else
    var kind := Classify(g, t.request);
    if kind.None? || !Creates(g, kind.value) then None
    else Located(Spend(g, kind.value, t.request.url).(requests := g.requests + 1), kind.value, t.answer.value)
  }

  // The checkpoint is granted once, and only while the intent held has no address.
  predicate MayCheckpoint(s: System) {
    s.process.Running? && !s.process.checkpointed && s.process.held.state == StoreReserve.RequestPending
  }

  function Exchanged(s: System, t: Turn, outcome: Outcome): System
    requires s.process.Running?
  {
    var at := if MayCheckpoint(s) then NewAddress(s.process.guard, t) else None;
    var saved := at.Some? && outcome == Replaced;
    var r := OrderTransport.Step(s.process.guard, t.(saved := saved));
    var process := s.process.(guard := r.guard, segment := s.process.segment + r.log,
        checkpointed := s.process.checkpointed || saved,
        held := if saved then Durable(StoreReserve.OrderKnown, at) else s.process.held);
    if at.None? || outcome == NotReplaced then s.(process := process, log := s.log + r.log)
    else if outcome == Uncertain then
      s.(durable := Durable(StoreReserve.OrderKnown, at), process := process, log := s.log + r.log + [Saved(at.value)])
    else s.(durable := Durable(StoreReserve.OrderKnown, at), process := process, log := s.log + r.log)
  }

  function Start(account: string, held: Durable, names: seq<string>, checkpointed: bool): Process {
    Running(Fresh(account, held.url, names, false), Fresh(account, held.url, names, false), [], checkpointed, held)
  }

  function Apply(s: System, e: Step): System {
    match e
    case BeginOrder(account, names, outcome) =>
      if s.process.Running? || s.durable.state != StoreReserve.NotStarted || outcome == NotReplaced then s else
      s.(durable := PENDING, process := if outcome == Replaced then Start(account, PENDING, names, false) else Idle,
         log := [], past := s.past + [s.log])
    case Resume(account, names) =>
      if s.process.Running? || s.durable.url.None?
         || s.durable.state !in {StoreReserve.OrderKnown, StoreReserve.DnsReady, StoreReserve.DnsAcknowledged} then s
      else s.(process := Start(account, s.durable, names, true))
    case Exchange(t, outcome) => if s.process.Idle? then s else Exchanged(s, t, outcome)
    case Prepare(url, outcome) =>
      if s.process.Idle? then s
      else if !s.process.checkpointed || s.process.held.url != Some(url) || outcome == NotReplaced then
        s.(process := Idle)
      else s.(process := Idle, durable := s.process.held.(state := StoreReserve.DnsReady))
    case SaveWait(outcome) =>
      if s.process.Idle? then s
      else if outcome == NotReplaced then s.(process := Idle)
      else s.(process := Idle, durable := s.process.held)
    case End => s.(process := Idle)
    case Acknowledge =>
      if s.process.Running? || s.durable.state != StoreReserve.DnsReady then s
      else s.(durable := s.durable.(state := StoreReserve.DnsAcknowledged))
    case BeginValidation(refresh) =>
      if s.process.Running? || (if refresh then !StoreReserve.ValidationStarted(s.durable.state)
                                else s.durable.state != StoreReserve.DnsAcknowledged) then s
      else s.(durable := s.durable.(state := StoreReserve.ValidationPending))
    case FinishValidation(verdict) =>
      if s.process.Running? || s.durable.state != StoreReserve.ValidationPending
         || verdict !in {StoreReserve.ValidationWaiting, StoreReserve.ValidationFailed, StoreReserve.DomainVerified}
             then s
      else s.(durable := s.durable.(state := verdict))
    case Close =>
      // A request whose order has no address or no terms yet cannot be closed (ClosedScope.UnknownOrdersStayOpen).
      if s.process.Running? || s.durable.state in {StoreReserve.NotStarted, StoreReserve.RequestPending,
          StoreReserve.OrderKnown} then s
      else s.(durable := Durable(StoreReserve.NotStarted, None))
  }

  function Run(steps: seq<Step>): System {
    if steps == [] then EMPTY else Apply(Run(steps[..|steps| - 1]), steps[|steps| - 1])
  }

  // ---- What one intent's log may show ----

  predicate Creation(e: Event) { SentAs(e, OrderPost) && e.url == NewOrderUrl }

  /** At most one request creates an order, at most one address is ever made durable, nothing of a new
      order's answer is read before that, and every other order request goes to that address. */
  predicate SafeOrder(log: seq<Event>) {
    && (forall i, j | 0 <= i < j < |log| && Creation(log[i]) :: !Creation(log[j]))
    && (forall i, j | 0 <= i < j < |log| && log[i].Saved? :: !log[j].Saved?)
    && (forall k | 0 <= k < |log| && log[k] == Opened(OrderPost) :: exists j | 0 <= j < k :: log[j].Saved?)
    && (forall k | 0 <= k < |log| && SentAs(log[k], OrderPost) && !Creation(log[k]) :: Saved(log[k].url) in log[..k])
  }

  // What is stored agrees with what the log says about the current intent.
  predicate Agrees(d: Durable, log: seq<Event>) {
    && (d.url.Some? ==> d.url.value.OrderUrl? && Saved(d.url.value) in log)
    && (d.url.None? <==> d.state.NotStarted? || d.state.RequestPending?)
  }

  // ---- One round trip and the checkpoint ----

  lemma ReceiveSaves(g: Guard, kind: Kind, t: Turn, a: Answer)
    requires !g.failed
    ensures var r := Receive(g, kind, t, a, []);
            var at := if Creates(g, kind) then Located(g, kind, a) else None;
            && (forall e | e in r.log && e.Saved? :: t.saved && at == Some(e.order) && e.order.OrderUrl?)
            && (at.Some? && t.saved ==> Saved(at.value) in r.log)
            && (at.Some? && !t.saved ==> r.guard.failed)
  {
    hide Open;
    OpenShape(g, kind, t, a, []);
    var at := Located(g, kind, a);
    if Creates(g, kind) && at.Some? {
      OpenShape(g.(order := at), kind, t, a, [] + [Saved(at.value)]);
    }
  }

  lemma StepSaves(g: Guard, t: Turn)
    ensures var r := OrderTransport.Step(g, t);
            var at := NewAddress(g, t);
            && (forall e | e in r.log && e.Saved? :: t.saved && at == Some(e.order) && e.order.OrderUrl?)
            && (at.Some? && t.saved ==> Saved(at.value) in r.log)
            && (at.Some? && !t.saved ==> r.guard.failed)
    ensures g.failed ==> OrderTransport.Step(g, t).log == [] && OrderTransport.Step(g, t).guard.failed
    ensures g.order.Some? ==> NewAddress(g, t).None?
  {
    hide Receive, Classify, Located;
    if !g.failed && Classify(g, t.request).Some? && t.answer.Some? {
      var kind := Classify(g, t.request).value;
      var sent := Spend(g, kind, t.request.url).(requests := g.requests + 1);
      var e := Sent(kind, t.request.url, g.nonce, t.request.body);
      ReceiveSaves(sent, kind, t, t.answer.value);
      ReceiveAppends(sent, kind, t, t.answer.value, [e], []);
      assert [e] + [] == [e];
    }
  }

  // ---- What every step keeps ----

  predicate NothingSaved(log: seq<Event>) { forall e | e in log :: !e.Saved? }

  // Creating: the transport's log is the intent's log, until a checkpoint of unknown outcome ends it.
  predicate CreatingInv(s: System) {
    && s.process.Running? && s.process.start.order.None? && !s.process.start.validation
    && Conforms(s.process.start, s.process.guard, s.process.segment)
    && if s.log == s.process.segment then
         if NothingSaved(s.log) then !s.process.checkpointed && s.durable == PENDING && s.process.held == PENDING
         else s.process.checkpointed && s.durable.state == StoreReserve.OrderKnown && s.process.held == s.durable
       else
         && s.process.guard.failed && !s.process.checkpointed && NothingSaved(s.process.segment)
         && s.durable.state == StoreReserve.OrderKnown && s.durable.url.Some? && s.process.held == PENDING
         && s.log == s.process.segment + [Saved(s.durable.url.value)]
  }

  // Resuming: the transport knows the stored address and only adds reads to the intent's log.
  predicate ResumingInv(s: System) {
    && s.process.Running? && s.process.start.order.Some? && !s.process.start.validation
    && s.durable.url == s.process.start.order && s.process.checkpointed && s.process.held == s.durable
    && s.process.guard.order.Some?
    && s.durable.state in {StoreReserve.OrderKnown, StoreReserve.DnsReady, StoreReserve.DnsAcknowledged}
    && Conforms(s.process.start, s.process.guard, s.process.segment)
    && |s.process.segment| <= |s.log| && s.log[|s.log| - |s.process.segment|..] == s.process.segment
    && Saved(s.durable.url.value) in s.log[..|s.log| - |s.process.segment|]
  }

  predicate Inv(s: System) {
    && SafeOrder(s.log) && Agrees(s.durable, s.log)
    && (forall k | 0 <= k < |s.past| :: SafeOrder(s.past[k]))
    && (s.process.Running? ==> CreatingInv(s) || ResumingInv(s))
  }

  lemma CreatingLogIsSafe(start: Guard, g: Guard, log: seq<Event>)
    requires Conforms(start, g, log) && start.order.None? && !start.validation
    ensures SafeOrder(log)
    ensures NothingSaved(log) ==> SafeOrder(log) && forall e | e in log :: e != Opened(OrderPost)
  {
    hide Tracks, Budget, Legal, Observe, FreshlyFetched;
    var rules := OrderTransport.RulesOf(start);
    forall k | 0 <= k < |log| ensures KeepsItsPromise(log, rules, k) {
      PromisesAreKept(log, rules, k);
    }
    forall i, j | 0 <= i < j < |log| && Creation(log[i]) ensures !Creation(log[j]) {
      assert KeepsItsPromise(log, rules, j);
    }
    forall i, j | 0 <= i < j < |log| && log[i].Saved? ensures !log[j].Saved? {
      assert KeepsItsPromise(log, rules, j);
    }
    forall k | 0 <= k < |log| && log[k] == Opened(OrderPost) ensures exists j | 0 <= j < k :: log[j].Saved? {
      assert KeepsItsPromise(log, rules, k);
    }
    forall k | 0 <= k < |log| && SentAs(log[k], OrderPost) ensures Creation(log[k]) {
      assert KeepsItsPromise(log, rules, k);
    }
  }

  lemma UncertainLogIsSafe(log: seq<Event>, u: Url)
    requires SafeOrder(log) && NothingSaved(log)
    ensures SafeOrder(log + [Saved(u)])
  {
    var more := log + [Saved(u)];
    forall k | 0 <= k < |log| ensures more[k] == log[k] && NothingSaved(log[..k]) && log[..k] == more[..k] {
      assert forall e | e in log[..k] :: e in log;
    }
  }

  lemma ResumedLogIsSafe(base: seq<Event>, segment: seq<Event>, start: Guard, g: Guard)
    requires SafeOrder(base) && Conforms(start, g, segment) && !start.validation
    requires start.order.Some? && start.order.value.OrderUrl? && Saved(start.order.value) in base
    ensures SafeOrder(base + segment) && NothingSaved(segment)
  {
    hide Tracks, Budget, Legal, Observe, FreshlyFetched;
    var rules, log := OrderTransport.RulesOf(start), base + segment;
    forall k | 0 <= k < |segment| ensures KeepsItsPromise(segment, rules, k) {
      PromisesAreKept(segment, rules, k);
    }
    forall k | 0 <= k < |segment| ensures !Creation(segment[k]) && !segment[k].Saved?
        && (SentAs(segment[k], OrderPost) ==> segment[k].url == start.order.value) {
      assert KeepsItsPromise(segment, rules, k);
    }
    var at :| 0 <= at < |base| && base[at] == Saved(start.order.value);
    assert log[at] == Saved(start.order.value);
    forall k | 0 <= k < |log| && SentAs(log[k], OrderPost) && !Creation(log[k]) ensures Saved(log[k].url) in log[..k] {
      if k < |base| {
        assert log[..k] == base[..k];
      } else {
        assert log[k] == segment[k - |base|];
        assert log[..k][at] == Saved(start.order.value);
      }
    }
    forall k | 0 <= k < |log| && log[k] == Opened(OrderPost) ensures exists j | 0 <= j < k :: log[j].Saved? {
      if k < |base| {
        var j :| 0 <= j < k && base[j].Saved?;
        assert log[j].Saved?;
      }
    }
  }

  // What a round trip of a creating operation keeps, whether or not its checkpoint was granted.
  lemma CreatingStep(s: System, t: Turn)
    requires Inv(s) && s.process.Running? && CreatingInv(s)
    ensures var p, r := s.process, OrderTransport.Step(s.process.guard, t);
            && Conforms(p.start, r.guard, p.segment + r.log) && SafeOrder(p.segment + r.log)
            && (NothingSaved(p.segment + r.log) <==> NothingSaved(p.segment) && NothingSaved(r.log))
            && (p.guard.failed ==> p.segment + r.log == p.segment && s.log + r.log == s.log && r.guard.failed)
  {
    hide Conforms, SafeOrder, OrderTransport.Step, NewAddress;
    var p, r := s.process, OrderTransport.Step(s.process.guard, t);
    StepSaves(p.guard, t);
    OrderRuns.TurnConforms(p.start, p.guard, p.segment, t);
    CreatingLogIsSafe(p.start, r.guard, p.segment + r.log);
    SavedAppends(p.segment, r.log);
    if p.guard.failed {
      assert p.segment + r.log == p.segment && s.log + r.log == s.log;
    }
  }

  // No address, or one that was not made durable: the intent stays as it was.
  lemma CreatingWithoutAddress(s: System, t: Turn, outcome: Outcome)
    requires Inv(s) && s.process.Running? && CreatingInv(s)
    requires !MayCheckpoint(s) || NewAddress(s.process.guard, t).None? || outcome == NotReplaced
    ensures Inv(Exchanged(s, t, outcome)) && CreatingInv(Exchanged(s, t, outcome))
  {
    hide Conforms, SafeOrder, OrderTransport.Step, NewAddress;
    var p, t' := s.process, t.(saved := false);
    StepSaves(p.guard, t');
    CreatingStep(s, t');
  }

  // The one granted checkpoint, made durable with or without certainty.
  lemma CreatingWithAddress(s: System, t: Turn, outcome: Outcome)
    requires Inv(s) && s.process.Running? && CreatingInv(s)
    requires MayCheckpoint(s) && NewAddress(s.process.guard, t).Some? && outcome != NotReplaced
    ensures Inv(Exchanged(s, t, outcome)) && CreatingInv(Exchanged(s, t, outcome))
  {
    hide Conforms, SafeOrder, OrderTransport.Step, NewAddress;
    var p, t' := s.process, t.(saved := outcome == Replaced);
    var r, at := OrderTransport.Step(p.guard, t'), NewAddress(p.guard, t);
    StepSaves(p.guard, t');
    AddressIgnoresCheckpoint(p.guard, t, t'.saved);
    CreatingStep(s, t');
    assert s.log == p.segment;
    if outcome == Uncertain {
      UncertainLogIsSafe(p.segment + r.log, at.value);
      assert s.log + r.log + [Saved(at.value)] != p.segment + r.log;
    }
  }

  lemma CreatingExchange(s: System, t: Turn, outcome: Outcome)
    requires Inv(s) && s.process.Running? && CreatingInv(s)
    ensures Inv(Exchanged(s, t, outcome)) && CreatingInv(Exchanged(s, t, outcome))
  {
    hide Inv, CreatingInv, Exchanged, NewAddress;
    if MayCheckpoint(s) && NewAddress(s.process.guard, t).Some? && outcome != NotReplaced {
      CreatingWithAddress(s, t, outcome);
    } else {
      CreatingWithoutAddress(s, t, outcome);
    }
  }

  lemma SavedAppends(a: seq<Event>, b: seq<Event>)
    ensures NothingSaved(a + b) <==> NothingSaved(a) && NothingSaved(b)
  {
    forall e | e in a || e in b ensures e in a + b {
    }
  }

  lemma AddressIgnoresCheckpoint(g: Guard, t: Turn, saved: bool)
    ensures NewAddress(g, t.(saved := saved)) == NewAddress(g, t)
    ensures g.failed ==> NewAddress(g, t).None?
    ensures NewAddress(g, t).Some? ==> NewAddress(g, t).value.OrderUrl?
  {
    hide Classify;
  }

  lemma ResumingExchange(s: System, t: Turn, outcome: Outcome)
    requires Inv(s) && s.process.Running? && ResumingInv(s)
    ensures Inv(Exchanged(s, t, outcome)) && ResumingInv(Exchanged(s, t, outcome))
  {
    hide Conforms, SafeOrder, OrderTransport.Step, NewAddress;
    var p := s.process;
    var t' := t.(saved := false);
    var r := OrderTransport.Step(p.guard, t');
    var n := |s.log| - |p.segment|;
    StepSaves(p.guard, t');
    KnownOrderStays(p.guard, t');
    OrderRuns.TurnConforms(p.start, p.guard, p.segment, t');
    PrefixIsSafe(s.log, n);
    ResumedLogIsSafe(s.log[..n], p.segment + r.log, p.start, r.guard);
    assert s.log == s.log[..n] + p.segment;
    assert s.log + r.log == s.log[..n] + (p.segment + r.log);
    assert (s.log + r.log)[..n] == s.log[..n];
  }

  lemma KnownOrderStays(g: Guard, t: Turn)
    requires g.order.Some?
    ensures OrderTransport.Step(g, t).guard.order == g.order
  {
    hide Classify, Receive;
    if !g.failed && Classify(g, t.request).Some? && t.answer.Some? {
      var kind := Classify(g, t.request).value;
      var sent := Spend(g, kind, t.request.url).(requests := g.requests + 1);
      KnownOrderIsNotReplaced(sent, kind, t, t.answer.value, [Sent(kind, t.request.url, g.nonce, t.request.body)]);
    }
  }

  lemma KnownOrderIsNotReplaced(g: Guard, kind: Kind, t: Turn, a: Answer, log: seq<Event>)
    requires g.order.Some?
    ensures Receive(g, kind, t, a, log).guard.order == g.order
  {
    hide ReadContent, Located, ValidToken;
  }

  lemma PrefixIsSafe(log: seq<Event>, n: nat)
    requires SafeOrder(log) && n <= |log|
    ensures SafeOrder(log[..n])
  {
    var front := log[..n];
    forall k | 0 <= k < n ensures front[k] == log[k] && front[..k] == log[..k] {
    }
    forall k | 0 <= k < n && front[k] == Opened(OrderPost) ensures exists j | 0 <= j < k :: front[j].Saved? {
      var j :| 0 <= j < k && log[j].Saved?;
      assert front[j].Saved?;
    }
  }

  lemma StartKeepsInv(s: System, e: Step)
    requires Inv(s) && (e.BeginOrder? || e.Resume?)
    ensures Inv(Apply(s, e))
  {
    hide Tracks, Budget;
    var s' := Apply(s, e);
    if s' != s && s'.process.Running? {
      StartConforms(s'.process.start);
    }
  }

  lemma EndKeepsInv(s: System, e: Step)
    requires Inv(s) && s.process.Running? && !e.Exchange?
    ensures Inv(Apply(s, e))
  {
    hide SafeOrder, Conforms;
  }

  lemma WriterKeepsInv(s: System, e: Step)
    requires Inv(s) && s.process.Idle? && !e.Exchange? && !e.BeginOrder? && !e.Resume?
    ensures Inv(Apply(s, e))
  {
    hide SafeOrder, CreatingInv, ResumingInv;
  }

  lemma ApplyKeepsInv(s: System, e: Step)
    requires Inv(s)
    ensures Inv(Apply(s, e))
  {
    hide CreatingInv, ResumingInv, Inv, Exchanged;
    if e.Exchange? && s.process.Running? {
      RunningIsEither(s);
      if CreatingInv(s) { CreatingExchange(s, e.turn, e.outcome); } else { ResumingExchange(s, e.turn, e.outcome); }
    } else if e.BeginOrder? || e.Resume? {
      StartKeepsInv(s, e);
    } else if s.process.Running? {
      EndKeepsInv(s, e);
    } else if !e.Exchange? {
      WriterKeepsInv(s, e);
    }
  }

  lemma RunningIsEither(s: System)
    requires Inv(s) && s.process.Running?
    ensures CreatingInv(s) || ResumingInv(s)
  {
  }

  /** Over every history of operations, crashes, uncertain replacements, saved waits and answers, each
      committed intent sends at most one request that creates an order; the address it returned is
      durable before anything of the answer is read; and no other order request goes anywhere else. */
  lemma {:induction false} EveryIntentIsSafe(steps: seq<Step>)
    ensures Inv(Run(steps))
    ensures SafeOrder(Run(steps).log) && forall k | 0 <= k < |Run(steps).past| :: SafeOrder(Run(steps).past[k])
  {
    if steps == [] {
    } else {
      hide Apply;
      EveryIntentIsSafe(steps[..|steps| - 1]);
      ApplyKeepsInv(Run(steps[..|steps| - 1]), steps[|steps| - 1]);
      hide SafeOrder, CreatingInv, ResumingInv;
    }
  }

  // ---- An address that was lost ----

  function Continue(s: System, steps: seq<Step>): System {
    if steps == [] then s else Apply(Continue(s, steps[..|steps| - 1]), steps[|steps| - 1])
  }

  /** An intent whose operation ended without a durable address is never resumed, repeated or closed:
      nothing more is sent for it, whatever is tried. */
  lemma {:induction false} LostAddressIsFinal(s: System, steps: seq<Step>)
    requires s.process.Idle? && s.durable.state == StoreReserve.RequestPending && s.durable.url.None?
    ensures Continue(s, steps) == s
  {
    if steps != [] {
      LostAddressIsFinal(s, steps[..|steps| - 1]);
    }
  }

  // The two ways a stored address goes: a granted close, and a wait saved over it from the image of an
  // operation whose checkpoint was not confirmed.
  predicate Closes(s: System, e: Step) {
    e.Close? && s.process.Idle? && s.durable.state != StoreReserve.OrderKnown
  }

  predicate Overwrites(s: System, e: Step) {
    e.SaveWait? && e.outcome != NotReplaced && s.process.Running? && !s.process.checkpointed
  }

  lemma StepKeepsAddress(s: System, e: Step)
    requires Inv(s) && s.durable.url.Some?
    ensures Apply(s, e).durable.url == s.durable.url <==> !Closes(s, e) && !Overwrites(s, e)
    ensures Closes(s, e) ==> Apply(s, e).durable == EMPTY.durable
    ensures Overwrites(s, e) ==> s.process.guard.failed && Apply(s, e).durable == PENDING
  {
    hide Conforms, SafeOrder, OrderTransport.Step;
    if e.Exchange? && s.process.Running? {
      AddressIgnoresCheckpoint(s.process.guard, e.turn, false);
    }
    hide NewAddress;
  }

  /** After any history, a stored address survives the next step unless that closes the request or saves a
      wait after a checkpoint that was made but not confirmed; such a wait puts back the intent without an
      address. */
  lemma AddressIsKept(steps: seq<Step>, e: Step)
    requires Run(steps).durable.url.Some?
    ensures var s := Run(steps);
            && (Apply(s, e).durable.url == s.durable.url <==> !Closes(s, e) && !Overwrites(s, e))
            && (Closes(s, e) ==> Apply(s, e).durable == EMPTY.durable)
            && (Overwrites(s, e) ==> s.process.guard.failed && Apply(s, e).durable == PENDING)
  {
    hide Run, Apply, Inv;
    EveryIntentIsSafe(steps);
    StepKeepsAddress(Run(steps), e);
  }

  predicate Definite(steps: seq<Step>) { forall e | e in steps && e.Exchange? :: e.outcome != Uncertain }

  lemma {:induction false} NothingUnconfirmed(steps: seq<Step>)
    requires Definite(steps)
    ensures var s := Run(steps); s.process.Running? && !s.process.checkpointed ==> s.durable == PENDING
  {
    if steps != [] {
      hide OrderTransport.Step, NewAddress;
      NothingUnconfirmed(steps[..|steps| - 1]);
      assert steps[|steps| - 1] in steps;
    }
  }

  /** Where every checkpoint is either made or not, an address once stored goes only with its request. */
  lemma ConfirmedAddressIsKept(steps: seq<Step>, e: Step)
    requires Definite(steps) && Run(steps).durable.url.Some? && !e.Close?
    ensures Apply(Run(steps), e).durable.url == Run(steps).durable.url
  {
    hide Run, Apply, Inv;
    NothingUnconfirmed(steps);
    AddressIsKept(steps, e);
  }

  // ---- The operation as it runs ----

  class Store {
    var durable: Durable
    var process: Process
    ghost var log: seq<Event>
    ghost var past: seq<seq<Event>>

    ghost function State(): System
      reads this
    { System(durable, process, log, past) }

    constructor ()
      ensures State() == EMPTY
    {
      durable, process := Durable(StoreReserve.NotStarted, None), Idle;
      log, past := [], [];
    }

    // Commits the intent, or checks that the saved order may be read again.
    method Open(account: string, names: seq<string>, resume: bool, outcome: Outcome) returns (ok: bool)
      requires process.Idle?
      modifies this
      ensures State() == Apply(old(State()), if resume then Resume(account, names)
                else BeginOrder(account, names, outcome))
      ensures ok == process.Running?
    {
      ok := false;
      if resume {
        if durable.url.None? || durable.state !in {StoreReserve.OrderKnown, StoreReserve.DnsReady,
            StoreReserve.DnsAcknowledged} { return; }
        process := Start(account, durable, names, true);
      } else {
        if durable.state != StoreReserve.NotStarted || outcome == NotReplaced { return; }
        durable, past, log := PENDING, past + [log], [];
        if outcome == Uncertain { return; }
        process := Start(account, durable, names, false);
      }
      ok := true;
    }

    method Exchange(t: Turn, outcome: Outcome)
      requires process.Running?
      modifies this
      ensures State() == Apply(old(State()), Step.Exchange(t, outcome)) && process.Running?
    {
      hide NewAddress, OrderTransport.Step;
      var may := !process.checkpointed && process.held.state == StoreReserve.RequestPending;
      var at := if may then NewAddress(process.guard, t) else None;
      var saved := at.Some? && outcome == Replaced;
      var r := OrderTransport.Step(process.guard, t.(saved := saved));
      process := process.(guard := r.guard, segment := process.segment + r.log);
      if saved { process := process.(checkpointed := true, held := Durable(StoreReserve.OrderKnown, at)); }
      log := log + r.log;
      if at.Some? && outcome != NotReplaced {
        durable := Durable(StoreReserve.OrderKnown, at);
        if outcome == Uncertain { log := log + [Saved(at.value)]; }
      }
    }

    /** runStagingOrder: one lock around intent, any number of round trips, checkpoint, and then the
        instructions, the wait saved after a failure, or neither. */
    method RunOrder(account: string, names: seq<string>, resume: bool, begun: Outcome,
                    turns: seq<(Turn, Outcome)>, last: Ending)
      requires process.Idle?
      modifies this
      ensures process.Idle?
      ensures State() == Continue(old(State()), Script(account, names, resume, begun, turns, last))
    {
      hide Apply;
      ghost var before := State();
      ghost var first := [if resume then Resume(account, names) else BeginOrder(account, names, begun)];
      ghost var steps := first;
      assert first[..0] == [] && Continue(before, first[..0]) == before;
      var ok := Open(account, names, resume, begun);
      if !ok {
        IdleIgnoresOperation(State(), turns, last);
        ContinueAppends(before, first, Rest(turns, last));
        return;
      }
      for i := 0 to |turns|
        invariant process.Running?
        invariant State() == Continue(before, first + Exchanges(turns[..i]))
      {
        Exchange(turns[i].0, turns[i].1);
        assert turns[..i + 1][..i] == turns[..i];
        assert (first + Exchanges(turns[..i + 1]))[..|first| + i] == first + Exchanges(turns[..i]);
      }
      assert turns[..|turns|] == turns;
      Finish(last);
      assert (first + Rest(turns, last))[..|first| + |turns|] == first + Exchanges(turns);
    }

    method Finish(last: Ending)
      requires process.Running?
      modifies this
      ensures State() == Apply(old(State()), Final(last)) && process.Idle?
    {
      match last {
        case Instructed(url, outcome) =>
          if process.checkpointed && process.held.url == Some(url) && outcome != NotReplaced {
            durable := process.held.(state := StoreReserve.DnsReady);
          }
        case Failed(outcome) => if outcome != NotReplaced { durable := process.held; }
        case Ended =>
      }
      process := Idle;
    }
  }

  // How an operation ends: it saves the instructions, it failed and saves the provider's wait, or neither.
  datatype Ending = Instructed(url: Url, outcome: Outcome) | Failed(outcome: Outcome) | Ended

  function Final(last: Ending): Step {
    match last
    case Instructed(url, outcome) => Prepare(url, outcome)
    case Failed(outcome) => SaveWait(outcome)
    case Ended => End
  }

  function Exchanges(turns: seq<(Turn, Outcome)>): (r: seq<Step>)
    ensures |r| == |turns|
  {
    if turns == [] then []
    else Exchanges(turns[..|turns| - 1]) + [Step.Exchange(turns[|turns| - 1].0, turns[|turns| - 1].1)]
  }

  function Rest(turns: seq<(Turn, Outcome)>, last: Ending): seq<Step> {
    Exchanges(turns) + [Final(last)]
  }

  // One operation's steps.
  function Script(account: string, names: seq<string>, resume: bool, begun: Outcome,
                  turns: seq<(Turn, Outcome)>, last: Ending): seq<Step> {
    [if resume then Resume(account, names) else BeginOrder(account, names, begun)] + Rest(turns, last)
  }

  lemma {:induction false} ContinueAppends(s: System, a: seq<Step>, b: seq<Step>)
    ensures Continue(s, a + b) == Continue(Continue(s, a), b)
  {
    if b == [] {
      assert a + b == a;
    } else {
      ContinueAppends(s, a, b[..|b| - 1]);
      assert (a + b)[..|a + b| - 1] == a + b[..|b| - 1];
    }
  }

  lemma IdleIgnoresOperation(s: System, turns: seq<(Turn, Outcome)>, last: Ending)
    requires s.process.Idle?
    ensures Continue(s, Rest(turns, last)) == s
  {
    hide Apply, Exchanges;
    var steps := Rest(turns, last);
    IdleIgnoresExchanges(s, turns);
    assert steps[..|steps| - 1] == Exchanges(turns) && steps[|steps| - 1] == Final(last);
    IdleIgnoresEnding(s, last);
  }

  lemma IdleIgnoresEnding(s: System, last: Ending)
    requires s.process.Idle?
    ensures Apply(s, Final(last)) == s
  {
  }

  lemma {:induction false} IdleIgnoresExchanges(s: System, turns: seq<(Turn, Outcome)>)
    requires s.process.Idle?
    ensures Continue(s, Exchanges(turns)) == s
  {
    if turns != [] {
      IdleIgnoresExchanges(s, turns[..|turns| - 1]);
      assert Exchanges(turns)[..|turns| - 1] == Exchanges(turns[..|turns| - 1]);
    }
  }
}
