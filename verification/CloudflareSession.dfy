/**
 One bounded conversation with the DNS provider (internal/acmestaging/cloudflare.go):
 confirm the zone, look, and at most once write.

 What a reply may be is already reduced to what `fetch` lets through; the provider is otherwise
 free to answer anything, and the caller's permission may end at any moment.
 */
module CloudflareSession {
  import opened Common
  import opened RetryPolicy
  import opened DnsRecord
  import opened DnsTransitions

  const MAX_CALLS := 3

  datatype CfRecord = CfRecord(id: string, kind: string, name: string, content: string, comment: string, proxied: bool)

  // The reviewed place a record may be written, and the marker only this plan record's owner writes.
  datatype Target = Target(name: string, value: string, owner: string)

  datatype Request = GetZone | ListMatching | GetRecord(id: string) | PostRecord | DeleteRecord(id: string)

  datatype Reply =
    | Refused                      // transport, status, media, shape or size failure
    | Busy(hint: Hint)             // 429 or 503
    | Missing                      // 404 on a read
    | Zone(asReviewed: bool)
    | Records(list: seq<CfRecord>) // one complete page
    | Single(record: CfRecord)
    | Removed(id: string)

  datatype Result = Failed(hint: Hint) | Seen(observed: Observed)

  // One call as the session lives it: permission before sending, the reply, permission after it,
  // and whether the durable intent is confirmed when the session asks.
  datatype Exchange = Exchange(permitted: bool, reply: Reply, live: bool, committed: bool)

  datatype Stage = AtZone | AtList | AtPost | AtGet | AtConfirm | AtDelete | Done(result: Result)

  datatype Session = Session(saved: Observed, cleanup: bool, readOnly: bool, stage: Stage, sent: seq<Request>)

  const NO_HINT := Hint(None, false)
  const STOPPED := Done(Failed(NO_HINT))

  function Marker(t: Target): string { "rootwell-acme-v1-" + t.owner }

  predicate Owns(r: CfRecord, t: Target, id: string) {
    r.id == id && Hex32(id) && r.kind == "TXT" && r.name == t.name && r.content == t.value && !r.proxied
    && r.comment == Marker(t)
  }

  predicate ValidState(s: Observed) {
    if s.state in {Created, Deleting} then Hex32(s.id) else s.id == ""
  }

  // A usable filtered list: only exact matches, and never two of them.
  predicate Matching(list: seq<CfRecord>, t: Target) {
    |list| <= 1 && forall r | r in list ::
      Hex32(r.id) && r.kind == "TXT" && r.name == t.name && r.content == t.value && !r.proxied
  }

  function Start(saved: Observed, cleanup: bool, readOnly: bool, ready: bool): Session {
    var refused := || !ValidState(saved) || !ready
      || (cleanup && saved.state != Created && saved.state != Deleting)
      || (cleanup && saved.state == Deleting && !readOnly)
      || (!cleanup && saved.state != New && saved.state != Creating);
    Session(saved, cleanup, readOnly, if refused then STOPPED else AtZone, [])
  }

  function Next(s: Session): Request
    requires !s.stage.Done?
  {
    match s.stage
    case AtZone => GetZone
    case AtList => ListMatching
    case AtPost => PostRecord
    case AtGet => GetRecord(s.saved.id)
    case AtConfirm => ListMatching
    case AtDelete => DeleteRecord(s.saved.id)
  }

  // Only a provider's own wait survives a failure.
  function Refusal(reply: Reply): Result { Failed(if reply.Busy? then reply.hint else NO_HINT) }

  function FailedBy(reply: Reply): Stage { Done(Refusal(reply)) }

  // Where an admitted reply leads.
  function After(s: Session, t: Target, reply: Reply, committed: bool): Stage
    requires !s.stage.Done?
  {
    match s.stage
    case AtZone =>
      if !reply.Zone? then FailedBy(reply)
      else if !reply.asReviewed then STOPPED
      else if s.cleanup then AtGet else AtList
    case AtList =>
      if !reply.Records? then FailedBy(reply)
      else if !Matching(reply.list, t) then STOPPED
      else if |reply.list| == 1 then
        var r := reply.list[0];
        if s.saved.state == Creating then
          if Owns(r, t, r.id) then Done(Seen(Observed(Created, r.id))) else STOPPED
        else if r.comment == Marker(t) then STOPPED
        else Done(Seen(Observed(Borrowed, "")))
      else if s.readOnly || s.saved.state == Creating then Done(Seen(s.saved))
      else if committed then AtPost else STOPPED
    case AtPost =>
      if !reply.Single? then FailedBy(reply)
      else if Owns(reply.record, t, reply.record.id) then Done(Seen(Observed(Created, reply.record.id)))
      else STOPPED
    case AtGet =>
      if reply.Missing? then AtConfirm
      else if !reply.Single? then FailedBy(reply)
      else if !Owns(reply.record, t, s.saved.id) then STOPPED
      else if s.readOnly then Done(Seen(s.saved))
      else if committed then AtDelete else STOPPED
    case AtConfirm =>
      if !reply.Records? then FailedBy(reply)
      else if !Matching(reply.list, t) || exists r | r in reply.list :: r.id == s.saved.id then STOPPED
      else Done(Seen(Observed(Deleted, "")))
    case AtDelete =>
      if !reply.Removed? then FailedBy(reply)
      else if reply.id == s.saved.id then Done(Seen(Observed(Deleted, ""))) else STOPPED
  }

  // One exchange: refused before sending, cut off after sending, or answered.
  function Advance(s: Session, t: Target, x: Exchange): Session
    requires !s.stage.Done?
  {
    if !x.permitted || |s.sent| >= MAX_CALLS then s.(stage := STOPPED)
    else
      var s' := s.(sent := s.sent + [Next(s)]);
      if x.live then s'.(stage := After(s, t, x.reply, x.committed)) else s'.(stage := STOPPED)
  }

  function Drive(s: Session, t: Target, script: seq<Exchange>): Session
    decreases script
  {
    if s.stage.Done? || script == [] then s else Drive(Advance(s, t, script[0]), t, script[1..])
  }

  // ---- What every conversation obeys ----

  predicate Writes(q: Request) { q.PostRecord? || q.DeleteRecord? }

  // What has been sent at each stage, and what the stage presupposes.
  predicate OnPath(s: Session) {
    match s.stage
    case AtZone => s.sent == []
    case AtList => s.sent == [GetZone] && !s.cleanup
    case AtPost => s.sent == [GetZone, ListMatching] && !s.cleanup && !s.readOnly && s.saved == Observed(New, "")
    case AtGet => s.sent == [GetZone] && s.cleanup
    case AtConfirm => s.sent == [GetZone, GetRecord(s.saved.id)] && s.cleanup
    case AtDelete => s.sent == [GetZone, GetRecord(s.saved.id)] && s.cleanup && !s.readOnly && s.saved.state == Created
    case Done(_) => Ended(s)
  }

  // Every way a conversation can end, as the requests it sent.
  predicate Ended(s: Session) {
    || s.sent == [] || s.sent == [GetZone]
    || (if s.cleanup then
          || s.sent == [GetZone, GetRecord(s.saved.id)]
          || s.sent == [GetZone, GetRecord(s.saved.id), ListMatching]
          || (!s.readOnly && s.sent == [GetZone, GetRecord(s.saved.id), DeleteRecord(s.saved.id)])
        else
          || s.sent == [GetZone, ListMatching]
          || (!s.readOnly && s.sent == [GetZone, ListMatching, PostRecord]))
  }

  predicate Expected(s: Session) {
    && ValidState(s.saved)
    && (s.cleanup ==> s.saved.state == Created || (s.saved.state == Deleting && s.readOnly))
    && (!s.cleanup ==> s.saved.state in {New, Creating})
  }

  lemma AdvanceStaysOnPath(s: Session, t: Target, x: Exchange)
    requires !s.stage.Done? && OnPath(s) && Expected(s)
    ensures OnPath(Advance(s, t, x)) && Expected(Advance(s, t, x))
    ensures |s.sent| < MAX_CALLS
  {
    var _ := s.sent + [Next(s)];
  }

  /** Whatever the provider answers and whenever permission ends: a conversation sends one of a fixed
      handful of request sequences, never refused for its call budget, with at most one write, which
      comes last; a read-only one writes nothing, making never deletes and removal never posts. */
  lemma {:induction false} ConversationsAreBounded(s: Session, t: Target, script: seq<Exchange>)
    requires OnPath(s) && Expected(s)
    ensures var end := Drive(s, t, script);
            && OnPath(end) && |end.sent| <= MAX_CALLS
            && (end.saved, end.cleanup, end.readOnly) == (s.saved, s.cleanup, s.readOnly)
            && (|script| + |s.sent| >= MAX_CALLS ==> end.stage.Done?)
            && (forall i | 0 <= i < |end.sent| && Writes(end.sent[i]) ::
                  i == |end.sent| - 1 && !s.readOnly && (end.sent[i].PostRecord? <==> !s.cleanup))
    decreases script
  {
    if !s.stage.Done? && script != [] {
      AdvanceStaysOnPath(s, t, script[0]);
      ConversationsAreBounded(Advance(s, t, script[0]), t, script[1..]);
    }
  }

  // ---- What each write and each result has to show for itself ----

  // The record this owner writes, as the provider would list it.
  function Ours(t: Target, id: string): CfRecord {
    CfRecord(id, "TXT", t.name, t.value, "rootwell-acme-v1-" + t.owner, false)
  }

  // The call was sent, and its reply reached a session that was still permitted.
  predicate Showed(x: Exchange, reply: Reply) { x.permitted && x.live && x.reply == reply }

  // Making starts from nothing or from an unsettled creation, removal from a known record, whose unsettled
  // deletion is only looked at.
  predicate Opens(saved: Observed, cleanup: bool, readOnly: bool, ready: bool, x: Exchange) {
    && ready && Showed(x, Zone(true))
    && (cleanup ==> Hex32(saved.id) && (saved.state == Created || (saved.state == Deleting && readOnly)))
    && (!cleanup ==> saved.id == "" && saved.state in {New, Creating})
  }

  // A new record's creation is asked for: the zone is as reviewed and nothing is there yet.
  predicate Posts(saved: Observed, cleanup: bool, readOnly: bool, ready: bool, script: seq<Exchange>)
    requires |script| >= MAX_CALLS
  {
    && Opens(saved, cleanup, readOnly, ready, script[0]) && !cleanup && !readOnly && saved.state == New
    && Showed(script[1], Records([])) && script[1].committed && script[2].permitted
  }

  // A known record's deletion is asked for: the provider has just shown it, exactly as this owner wrote it.
  predicate Deletes(saved: Observed, cleanup: bool, readOnly: bool, ready: bool, t: Target, script: seq<Exchange>)
    requires |script| >= MAX_CALLS
  {
    && Opens(saved, cleanup, readOnly, ready, script[0]) && cleanup && !readOnly && saved.state == Created
    && Showed(script[1], Single(Ours(t, saved.id))) && script[1].committed && script[2].permitted
  }

  // The wait a failed conversation reports: the one its last reply asked for, if it asked for one.
  function Asked(sent: seq<Request>, script: seq<Exchange>): Hint
    requires |sent| <= |script|
  {
    if sent != [] && script[|sent| - 1].live && script[|sent| - 1].reply.Busy? then script[|sent| - 1].reply.hint
    else Hint(None, false)
  }

  // How a conversation that gets past the zone ends, told from its two or three exchanges.
  function Ending(saved: Observed, cleanup: bool, readOnly: bool, t: Target, script: seq<Exchange>): Session
    requires |script| >= MAX_CALLS
  {
    var s1 := Session(saved, cleanup, readOnly, if cleanup then AtGet else AtList, [GetZone]);
    var s2 := Advance(s1, t, script[1]);
    if s2.stage.Done? then s2 else Advance(s2, t, script[2])
  }

  lemma ConversationEnds(saved: Observed, cleanup: bool, readOnly: bool, ready: bool, t: Target,
      script: seq<Exchange>)
    requires |script| >= MAX_CALLS
    ensures var end := Drive(Start(saved, cleanup, readOnly, ready), t, script);
            if Opens(saved, cleanup, readOnly, ready, script[0]) then
              end == Ending(saved, cleanup, readOnly, t, script) && end.stage.Done?
            else
              && (end.sent == [] || end.sent == [GetZone])
              && end.stage == Done(Failed(Asked(end.sent, script)))
  {
    var s0 := Start(saved, cleanup, readOnly, ready);
    if !s0.stage.Done? {
      DriveThrice(s0, t, script);
      hide Drive, Hex32, Matching, Owns;
    }
  }

  // What the requests sent have to show for themselves.
  predicate Justified(saved: Observed, cleanup: bool, readOnly: bool, ready: bool, t: Target, script: seq<Exchange>,
      sent: seq<Request>)
    requires |script| >= MAX_CALLS
  {
    && (PostRecord in sent <==> Posts(saved, cleanup, readOnly, ready, script))
    && (PostRecord in sent ==> sent == [GetZone, ListMatching, PostRecord])
    && (DeleteRecord(saved.id) in sent <==> Deletes(saved, cleanup, readOnly, ready, t, script))
    && forall q | q in sent && q.DeleteRecord? :: sent == [GetZone, GetRecord(saved.id), DeleteRecord(saved.id)]
  }

  lemma MakingWrites(saved: Observed, readOnly: bool, ready: bool, t: Target, script: seq<Exchange>)
    requires |script| >= MAX_CALLS && Opens(saved, false, readOnly, ready, script[0])
    ensures Justified(saved, false, readOnly, ready, t, script, Ending(saved, false, readOnly, t, script).sent)
  {
    hide Hex32, Owns;
  }

  lemma RemovingWrites(saved: Observed, readOnly: bool, ready: bool, t: Target, script: seq<Exchange>)
    requires |script| >= MAX_CALLS && Opens(saved, true, readOnly, ready, script[0])
    ensures Justified(saved, true, readOnly, ready, t, script, Ending(saved, true, readOnly, t, script).sent)
  {
    hide Hex32, Matching;
  }

  /** A creation follows the reviewed zone and an empty complete list, a deletion a reply that showed
      exactly this owner's record under the saved identifier; both only after the intent was confirmed
      durable, and each whenever that is so. */
  lemma WritesFollowTheirEvidence(saved: Observed, cleanup: bool, readOnly: bool, ready: bool, t: Target,
      script: seq<Exchange>)
    requires |script| >= MAX_CALLS
    ensures Justified(saved, cleanup, readOnly, ready, t, script,
                      Drive(Start(saved, cleanup, readOnly, ready), t, script).sent)
  {
    hide Drive, Start, Ending, Opens;
    ConversationEnds(saved, cleanup, readOnly, ready, t, script);
    if Opens(saved, cleanup, readOnly, ready, script[0]) {
      hide Justified;
      if cleanup { RemovingWrites(saved, readOnly, ready, t, script); }
      else { MakingWrites(saved, readOnly, ready, t, script); }
    }
  }

  // A list that shows nothing of interest but possibly one record someone else made at the reviewed place.
  predicate OthersAt(list: seq<CfRecord>, t: Target) {
    || list == []
    || (|list| == 1 && Hex32(list[0].id)
        && list[0] == CfRecord(list[0].id, "TXT", t.name, t.value, list[0].comment, false))
  }

  // The record with this identifier was shown to be this owner's: in the list of a resumed creation, in the
  // reply to the creation itself, or when a known record was only looked at.
  predicate SawOurs(saved: Observed, cleanup: bool, readOnly: bool, ready: bool, t: Target, script: seq<Exchange>,
      id: string)
    requires |script| >= MAX_CALLS
  {
    && Opens(saved, cleanup, readOnly, ready, script[0]) && Hex32(id)
    && if cleanup then readOnly && id == saved.id && Showed(script[1], Single(Ours(t, id)))
       else if saved.state == Creating then Showed(script[1], Records([Ours(t, id)]))
       else Posts(saved, cleanup, readOnly, ready, script) && Showed(script[2], Single(Ours(t, id)))
  }

  // Exactly one record at the reviewed place, and not with this owner's marker.
  predicate SawTheirs(saved: Observed, cleanup: bool, readOnly: bool, ready: bool, t: Target, script: seq<Exchange>)
    requires |script| >= MAX_CALLS
  {
    && Opens(saved, cleanup, readOnly, ready, script[0]) && !cleanup && saved.state == New
    && script[1].reply.Records? && Showed(script[1], script[1].reply)
    && |script[1].reply.list| == 1 && OthersAt(script[1].reply.list, t)
    && script[1].reply.list[0].comment != "rootwell-acme-v1-" + t.owner
  }

  // The known record is gone: deleted by name, or missing when asked for and from the list.
  predicate SawNone(saved: Observed, cleanup: bool, readOnly: bool, ready: bool, t: Target, script: seq<Exchange>)
    requires |script| >= MAX_CALLS
  {
    if Deletes(saved, cleanup, readOnly, ready, t, script) then Showed(script[2], Removed(saved.id))
    else
      && Opens(saved, cleanup, readOnly, ready, script[0]) && cleanup && Showed(script[1], Missing)
      && script[2].reply.Records? && Showed(script[2], script[2].reply)
      && OthersAt(script[2].reply.list, t) && forall r | r in script[2].reply.list :: r.id != saved.id
  }

  // Nothing has changed: no record yet where none was asked for now.
  predicate SawNothingYet(saved: Observed, cleanup: bool, readOnly: bool, ready: bool, script: seq<Exchange>)
    requires |script| >= MAX_CALLS
  {
    && Opens(saved, cleanup, readOnly, ready, script[0]) && !cleanup && (readOnly || saved.state == Creating)
    && Showed(script[1], Records([]))
  }

  // What a conversation has to show for reporting this.
  predicate Evident(saved: Observed, cleanup: bool, readOnly: bool, ready: bool, t: Target, script: seq<Exchange>,
      o: Observed)
    requires |script| >= MAX_CALLS
  {
    match o.state
    case New | Creating => o == saved && SawNothingYet(saved, cleanup, readOnly, ready, script)
    case Created =>
      SawOurs(saved, cleanup, readOnly, ready, t, script, o.id) && (cleanup ==> saved.state == Created)
    case Borrowed => o.id == "" && SawTheirs(saved, cleanup, readOnly, ready, t, script)
    case Deleting => SawOurs(saved, cleanup, readOnly, ready, t, script, o.id) && cleanup && saved.state == Deleting
    case Deleted => o.id == "" && SawNone(saved, cleanup, readOnly, ready, t, script)
  }

  lemma MakingShows(saved: Observed, readOnly: bool, ready: bool, t: Target, script: seq<Exchange>, o: Observed)
    requires |script| >= MAX_CALLS && Opens(saved, false, readOnly, ready, script[0])
    ensures var end := Ending(saved, false, readOnly, t, script);
            && (end.stage == Done(Seen(o)) <==> Evident(saved, false, readOnly, ready, t, script, o))
            && (end.stage.Done? && end.stage.result.Failed? ==>
                  |end.sent| <= MAX_CALLS && end.stage.result.hint == Asked(end.sent, script))
  {
    hide Hex32;
  }

  lemma RemovingShows(saved: Observed, readOnly: bool, ready: bool, t: Target, script: seq<Exchange>, o: Observed)
    requires |script| >= MAX_CALLS && Opens(saved, true, readOnly, ready, script[0])
    ensures var end := Ending(saved, true, readOnly, t, script);
            && (end.stage == Done(Seen(o)) <==> Evident(saved, true, readOnly, ready, t, script, o))
            && (end.stage.Done? && end.stage.result.Failed? ==>
                  |end.sent| <= MAX_CALLS && end.stage.result.hint == Asked(end.sent, script))
  {
    hide Hex32;
  }

  lemma UnopenedShowsNothing(saved: Observed, cleanup: bool, readOnly: bool, ready: bool, t: Target,
      script: seq<Exchange>, o: Observed)
    requires |script| >= MAX_CALLS && !Opens(saved, cleanup, readOnly, ready, script[0])
    ensures !Evident(saved, cleanup, readOnly, ready, t, script, o)
  {
    hide Hex32, Opens;
  }

  /** What a conversation reports is exactly what its replies showed: created if and only if this very
      record was shown under that identifier, borrowed if and only if someone else's stands in its place,
      deleted if and only if it was removed by name or found missing twice; anything else is a failure that
      carries no wait but the provider's own. */
  lemma ResultsFollowTheirEvidence(saved: Observed, cleanup: bool, readOnly: bool, ready: bool, t: Target,
      script: seq<Exchange>, o: Observed)
    requires |script| >= MAX_CALLS
    ensures var end := Drive(Start(saved, cleanup, readOnly, ready), t, script);
            && end.stage.Done?
            && (end.stage.result == Seen(o) <==> Evident(saved, cleanup, readOnly, ready, t, script, o))
            && (end.stage.result.Failed? ==>
                  |end.sent| <= MAX_CALLS && end.stage.result.hint == Asked(end.sent, script))
  {
    hide Drive, Start, Evident, Ending, Opens;
    ConversationEnds(saved, cleanup, readOnly, ready, t, script);
    if !Opens(saved, cleanup, readOnly, ready, script[0]) {
      UnopenedShowsNothing(saved, cleanup, readOnly, ready, t, script, o);
    } else if cleanup {
      RemovingShows(saved, readOnly, ready, t, script, o);
    } else {
      MakingShows(saved, readOnly, ready, t, script, o);
    }
  }

  // The three exchanges of a conversation, one by one.
  lemma DriveThrice(s: Session, t: Target, script: seq<Exchange>)
    requires OnPath(s) && Expected(s) && s.stage == AtZone && |script| >= MAX_CALLS
    ensures var s1 := Advance(s, t, script[0]);
            var s2 := if s1.stage.Done? then s1 else Advance(s1, t, script[1]);
            var s3 := if s2.stage.Done? then s2 else Advance(s2, t, script[2]);
            OnPath(s1) && OnPath(s2) && OnPath(s3) && s3.stage.Done? && Drive(s, t, script) == s3
  {
    AdvanceStaysOnPath(s, t, script[0]);
    var s1 := Advance(s, t, script[0]);
    if !s1.stage.Done? {
      AdvanceStaysOnPath(s1, t, script[1]);
      var s2 := Advance(s1, t, script[1]);
      assert script[1..][0] == script[1] && script[1..][1..] == script[2..];
      assert Drive(s, t, script) == Drive(s1, t, script[1..]) == Drive(s2, t, script[2..]);
      if !s2.stage.Done? {
        AdvanceStaysOnPath(s2, t, script[2]);
        assert Drive(s2, t, script[2..]) == Drive(Advance(s2, t, script[2]), t, script[2..][1..]);
      }
    }
  }

  // What the conversation comes to report.
  function AnyResult(saved: Observed, cleanup: bool, readOnly: bool, ready: bool, t: Target,
      script: seq<Exchange>): Observed
  {
    var end := Drive(Start(saved, cleanup, readOnly, ready), t, script);
    if end.stage.Done? && end.stage.result.Seen? then end.stage.result.observed else saved
  }

  // ---- The connector itself ----

  /** The stateful session: a call counter and a log of what left the process. */
  class Connector {
    const target: Target
    var calls: nat
    var sent: seq<Request>

    constructor (t: Target)
      ensures target == t && calls == 0 && sent == []
    {
      target := t;
      calls, sent := 0, [];
    }

    method Fetch(q: Request, x: Exchange) returns (reply: Reply)
      modifies this
      ensures !x.permitted || old(calls) >= MAX_CALLS ==> reply == Refused && unchanged(this)
      ensures x.permitted && old(calls) < MAX_CALLS ==>
                && calls == old(calls) + 1 && sent == old(sent) + [q]
                && reply == (if x.live then x.reply else Refused)
    {
      if !x.permitted || calls >= MAX_CALLS { return Refused; }
      calls := calls + 1;
      sent := sent + [q];
      reply := if x.live then x.reply else Refused;
    }

    method Record(saved: Observed, cleanup: bool, readOnly: bool, ready: bool, script: seq<Exchange>)
        returns (result: Result)
      requires calls == 0 && sent == [] && |script| >= MAX_CALLS
      modifies this
      ensures var end := Drive(Start(saved, cleanup, readOnly, ready), target, script);
              end.stage == Done(result) && sent == end.sent && calls == |sent|
      ensures Justified(saved, cleanup, readOnly, ready, target, script, sent)
      ensures if result.Seen? then Evident(saved, cleanup, readOnly, ready, target, script, result.observed)
              else |sent| <= MAX_CALLS && result.hint == Asked(sent, script)
    {
      WritesFollowTheirEvidence(saved, cleanup, readOnly, ready, target, script);
      ResultsFollowTheirEvidence(saved, cleanup, readOnly, ready, target, script, AnyResult(saved, cleanup, readOnly,
          ready, target, script));
      hide Justified, Evident;
      var s0 := Start(saved, cleanup, readOnly, ready);
      if s0.stage.Done? { return Failed(NO_HINT); }
      DriveThrice(s0, target, script);
      var reply := Fetch(GetZone, script[0]);
      if !reply.Zone? { return Refusal(reply); }
      if !reply.asReviewed { return Failed(NO_HINT); }
      if cleanup {
        result := Cleanup(saved, readOnly, script);
        return;
      }
      reply := Fetch(ListMatching, script[1]);
      if !reply.Records? { return Refusal(reply); }
      if !Matching(reply.list, target) { return Failed(NO_HINT); }
      if |reply.list| == 1 {
        var r := reply.list[0];
        if saved.state == Creating {
          return if Owns(r, target, r.id) then Seen(Observed(Created, r.id)) else Failed(NO_HINT);
        }
        return if r.comment == Marker(target) then Failed(NO_HINT) else Seen(Observed(Borrowed, ""));
      }
      if readOnly || saved.state == Creating { return Seen(saved); }
      if !script[1].committed { return Failed(NO_HINT); }
      reply := Fetch(PostRecord, script[2]);
      if !reply.Single? { return Refusal(reply); }
      result := if Owns(reply.record, target, reply.record.id) then Seen(Observed(Created, reply.record.id))
                else Failed(NO_HINT);
    }

    method Cleanup(saved: Observed, readOnly: bool, script: seq<Exchange>) returns (result: Result)
      requires calls == 1 && sent == [GetZone] && |script| >= MAX_CALLS
      modifies this
      ensures var s1 := Session(saved, true, readOnly, AtGet, [GetZone]);
              var s2 := Advance(s1, target, script[1]);
              var s3 := if s2.stage.Done? then s2 else Advance(s2, target, script[2]);
              s3.stage.Done? ==> s3.stage == Done(result) && sent == s3.sent && calls == |sent|
    {
      var reply := Fetch(GetRecord(saved.id), script[1]);
      if reply.Missing? {
        reply := Fetch(ListMatching, script[2]);
        if !reply.Records? { return Refusal(reply); }
        if !Matching(reply.list, target) || exists r | r in reply.list :: r.id == saved.id { return Failed(NO_HINT); }
        return Seen(Observed(Deleted, ""));
      }
      if !reply.Single? { return Refusal(reply); }
      if !Owns(reply.record, target, saved.id) { return Failed(NO_HINT); }
      if readOnly { return Seen(saved); }
      if !script[1].committed { return Failed(NO_HINT); }
      reply := Fetch(DeleteRecord(saved.id), script[2]);
      if !reply.Removed? { return Refusal(reply); }
      result := if reply.id == saved.id then Seen(Observed(Deleted, "")) else Failed(NO_HINT);
    }
  }
}
