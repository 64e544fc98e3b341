/**
 The life of a stored order, step by step (the order writers of internal/inventorystore/orders.go around
 runStagingOrder in internal/instanceaccess/acme_order_linux.go), and a history in which a saved address is
 lost.
 */
module OrderMoves {
  import opened Common
  import opened AcmeWire
  import opened Conversation
  import opened OrderTransport
  import opened OrderRuns
  import opened OrderTransaction
  import StoreReserve

  // A step that finds no operation running and takes an order from one of these states to another.
  predicate Goes(s: System, from: set<StoreReserve.OrderState>) { s.process.Idle? && s.durable.state in from }

  // Where a step takes the stored order's state, if anywhere.
  function Moved(s: System, e: Step): Option<StoreReserve.OrderState> {
    match e
    case BeginOrder(_, _, outcome) =>
      if Goes(s, {StoreReserve.NotStarted}) && outcome != NotReplaced then Some(StoreReserve.RequestPending) else None
    case Exchange(t, outcome) =>
      if s.process.Running? && !s.process.checkpointed && s.process.held == PENDING && outcome != NotReplaced
         && NewAddress(s.process.guard, t).Some?
      then Some(StoreReserve.OrderKnown) else None
    case Prepare(url, outcome) =>
      if s.process.Running? && s.process.checkpointed && s.process.held.url == Some(url) && outcome != NotReplaced
      then Some(StoreReserve.DnsReady) else None
    case SaveWait(outcome) =>
      if s.process.Running? && outcome != NotReplaced then Some(s.process.held.state) else None
    case Acknowledge => if Goes(s, {StoreReserve.DnsReady}) then Some(StoreReserve.DnsAcknowledged) else None
    case BeginValidation(refresh) =>
      if Goes(s, if refresh then {StoreReserve.ValidationPending, StoreReserve.ValidationWaiting,
                                  StoreReserve.ValidationFailed, StoreReserve.DomainVerified}
                 else {StoreReserve.DnsAcknowledged})
      then Some(StoreReserve.ValidationPending) else None
    case FinishValidation(verdict) =>
      if Goes(s, {StoreReserve.ValidationPending})
         && verdict in {StoreReserve.ValidationWaiting, StoreReserve.ValidationFailed, StoreReserve.DomainVerified}
      then Some(verdict) else None
    case Close =>
      if s.process.Idle? && s.durable.state !in {StoreReserve.NotStarted, StoreReserve.RequestPending,
                                                 StoreReserve.OrderKnown}
      then Some(StoreReserve.NotStarted) else None
    case Resume(_, _) | End => None
  }

  /** The stored state changes exactly where a step takes it, and an operation is running after a step exactly
      if the step opened it, on a committed intent or to read an order that is known and not yet validated,
      or it was running and was not ended. */
  lemma OrdersMoveStepByStep(s: System, e: Step)
    requires Inv(s)
    ensures match Moved(s, e)
            case None => Apply(s, e).durable == s.durable
            case Some(state) => Apply(s, e).durable.state == state
    ensures Apply(s, e).process.Running? <==>
              if s.process.Running? then !e.Prepare? && !e.SaveWait? && !e.End?
              else
                || (e.BeginOrder? && Goes(s, {StoreReserve.NotStarted}) && e.outcome == Replaced)
                || (e.Resume? && Goes(s, {StoreReserve.OrderKnown, StoreReserve.DnsReady,
                                          StoreReserve.DnsAcknowledged}))
  {
    hide Conforms, SafeOrder, OrderTransport.Step, NewAddress;
  }

  // ---- An address that a wait overwrites ----

  // One more step of a history.
  lemma Next(steps: seq<Step>, s: System, e: Step) returns (steps': seq<Step>, s': System)
    requires OrderTransaction.Run(steps) == s
    ensures steps' == steps + [e] && s' == Apply(s, e) && OrderTransaction.Run(steps') == s'
  {
    steps', s' := steps + [e], Apply(s, e);
    assert steps'[..|steps|] == steps;
  }

  lemma NoSteps()
    ensures OrderTransaction.Run([]) == EMPTY
  {
  }

  const TOKEN := "AAAAAAAAAAAAAAAAAAAAAAAA"

  // A permitted round trip that is answered.
  function Ask(verb: Verb, url: Url, body: Body, answer: Answer): Turn {
    Turn(Request(verb, url, body, true), true, true, true, true, true, true, 0, Some(answer))
  }

  const OPENED := Fresh("a", None, ["n"], false)
  const DIRECTORY := Ask(Get, DirectoryUrl, NoBody, Answer(200, [], [], true, true, true, Directory))
  const NONCE_READ := Ask(Head, NonceUrl, NoBody, Answer(200, [], [TOKEN], true, true, true, Garbage))

  lemma ReadDirectory()
    ensures NewAddress(OPENED, DIRECTORY).None?
    ensures OrderTransport.Step(OPENED, DIRECTORY.(saved := false)).guard == OPENED.(directory := true, requests := 1)
  {
  }

  lemma TokenIsValid()
    ensures ValidToken(TOKEN)
  {
  }

  lemma ReadNonce()
    ensures var g := OPENED.(directory := true, requests := 1);
            && NewAddress(g, NONCE_READ).None?
            && OrderTransport.Step(g, NONCE_READ.(saved := false)).guard == g.(nonce := TOKEN, requests := 2)
  {
    hide ValidToken, ReadContent, Located;
    TokenIsValid();
  }

  // A new order's operation as far as its nonce.
  lemma FetchNonce() returns (steps: seq<Step>, s: System)
    ensures OrderTransaction.Run(steps) == s && forall e | e in steps :: !e.Close?
    ensures s.durable == PENDING && s.process.Running? && !s.process.checkpointed && s.process.held == PENDING
    ensures s.process.guard == OPENED.(directory := true, nonce := TOKEN, requests := 2)
  {
    hide OrderTransaction.Run, NewAddress, OrderTransport.Step;
    steps, s := [], EMPTY;
    NoSteps();
    steps, s := Next(steps, s, BeginOrder("a", ["n"], Replaced));
    ReadDirectory();
    steps, s := Next(steps, s, Step.Exchange(DIRECTORY, Replaced));
    ReadNonce();
    steps, s := Next(steps, s, Step.Exchange(NONCE_READ, Replaced));
  }

  /** A new order's address is made durable, the replacement is reported as uncertain, and the operation
      saves the provider's wait: the address is gone although the request was never closed, and nothing
      that is tried afterwards changes that. */
  lemma AddressLostToAWait() returns (steps: seq<Step>)
    ensures forall e | e in steps :: !e.Close?
    ensures OrderTransaction.Run(steps).durable == Durable(StoreReserve.OrderKnown, Some(OrderUrl("o")))
    ensures var lost := Apply(OrderTransaction.Run(steps), SaveWait(Replaced));
            && lost.durable == PENDING && Saved(OrderUrl("o")) in lost.log
            && forall more :: Continue(lost, more) == lost
  {
    hide OrderTransaction.Run, Continue;
    var s;
    steps, s := FetchNonce();
    var post := Signed("a", TOKEN, NewOrderUrl, Identifiers(["n"]));
    var created := Answer(201, [OrderUrl("o")], [], true, true, true, Garbage);
    steps, s := Next(steps, s, Step.Exchange(Ask(Post, NewOrderUrl, post, created), Uncertain));
    var lost := Apply(s, SaveWait(Replaced));
    forall more ensures Continue(lost, more) == lost { LostAddressIsFinal(lost, more); }
  }
}
