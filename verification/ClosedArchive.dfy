/**
 The archive of closed requests (internal/inventorystore/closed_requests.go, request_archive.go,
 renewal.go, completion.go, manifest.go): closing, archiving and deleting keep the whole chain accepted.
 */
module ClosedArchive {
  import opened Common
  import opened ClosedScope
  import DnsRecord
  import StoreReserve

  const MAX_CLOSED := 32
  const MAX_ARCHIVES := 4
  const MIN_ARCHIVE := 16

  // The store as these operations see it: pages of closed requests, then the active page.
  datatype Image = Image(
    context: Context, current: Scope, archives: seq<seq<Closed>>, active: seq<Closed>, archived: nat)

  function Flat(pages: seq<seq<Closed>>): seq<Closed> {
    if pages == [] then [] else pages[0] + Flat(pages[1..])
  }

  // allClosedRequests: chronological, whatever page an item is on.
  function All(m: Image): seq<Closed> { Flat(m.archives) + m.active }

  // ---- The chain ----

  // renewalKeyFingerprint: the key a request certifies, once it has one.
  function KeyOf(s: Scope): string {
    if s.issuance.Some? && s.issuance.value.startedAt != NONE then s.issuance.value.key
    else if s.request.Some? then s.request.value.key else ""
  }

  /** The earlier request a renewal continues: the same account and names, closed before the renewal
      was ordered, a different key, and not deleted before the renewal itself was closed. */
  predicate Anchors(a: Closed, o: Order, closedAt: Stamp, closedGeneration: nat, newKey: string)
    requires o.source.Some?
  {
    && Saved(a.scope, o.source.value)
    && var i, d := a.scope.issuance.value, Completed(a.scope).value;
    && i.account == o.account && i.names == o.names && a.closedAt <= o.started && a.closedGeneration < o.sealed
    && (newKey != "" ==> newKey != i.key)
    && (d.deletedAt != NONE ==> closedAt != NONE && d.deletedAt >= closedAt && i.sealed > closedGeneration)
  }

  predicate Bound(earlier: seq<Closed>, o: Order, closedAt: Stamp, closedGeneration: nat, newKey: string) {
    o.source.Some? ==>
      exists j | 0 <= j < |earlier| :: Anchors(earlier[j], o, closedAt, closedGeneration, newKey)
  }

  predicate Follows(a: Closed, b: Closed) {
    && a.id != b.id && a.closedGeneration < b.closedGeneration && a.closedAt <= b.closedAt
    && (Completed(a.scope).Some? && Completed(b.scope).Some? ==>
          Completed(a.scope).value.fingerprint != Completed(b.scope).value.fingerprint)
  }

  predicate Linked(items: seq<Closed>, k: nat)
    requires k < |items|
  {
    && (forall j | 0 <= j < k :: Follows(items[j], items[k]))
    && items[k].scope.order.Some?
    && Bound(items[..k], items[k].scope.order.value, items[k].closedAt, items[k].closedGeneration,
        KeyOf(items[k].scope))
  }

  predicate Chained(items: seq<Closed>) {
    forall k | 0 <= k < |items| :: Linked(items, k)
  }

  // The open request continues the chain.
  predicate Continues(items: seq<Closed>, s: Scope) {
    && (s.order.Some? ==>
          && (forall k | 0 <= k < |items| ::
                items[k].id != s.order.value.url && items[k].closedGeneration < s.order.value.sealed
                && items[k].closedAt <= s.order.value.started)
          && Bound(items, s.order.value, NONE, 0, KeyOf(s)))
    && (Completed(s).Some? ==> forall k | 0 <= k < |items| :: !Saved(items[k].scope, Completed(s).value.fingerprint))
  }

  predicate PagesFit(m: Image) {
    && |m.active| <= MAX_CLOSED && |m.archives| <= MAX_ARCHIVES
    && (forall k | 0 <= k < |m.archives| :: MIN_ARCHIVE <= |m.archives[k]| <= MAX_CLOSED)
    && m.archived == |Flat(m.archives)|
  }

  /** What opening a store demands of its requests, open and closed. */
  predicate Accepted(m: Image) {
    && PagesFit(m)
    && ValidScope(m.current, m.context, false)
    && (forall k | 0 <= k < |All(m)| :: ValidClosed(All(m)[k], m.context))
    && Chained(All(m)) && Continues(All(m), m.current)
  }

  // ---- Closing ----

  function ClosedItem(m: Image, at: Stamp): Closed
    requires m.current.order.Some?
  {
    Closed(m.context.generation + 1, m.current.order.value.url, at, m.context.generation + 1,
           Eligibility(m.current, false, at), m.current)
  }

  // newRequestStatus: closable, and the clock is not behind any earlier closure.
  predicate MayClose(m: Image, at: Stamp) {
    && Eligibility(m.current, false, at) in {Complete, Expired}
    && (forall k | 0 <= k < |All(m)| :: All(m)[k].closedAt <= at)
    && |m.active| < MAX_CLOSED && m.context.generation < StoreReserve.MAX_GENERATION
  }

  function Close(m: Image, at: Stamp): Option<Image> {
    if !MayClose(m, at) || m.current.order.None? then None else
    Some(m.(context := m.context.(generation := m.context.generation + 1),
            current := EMPTY, active := m.active + [ClosedItem(m, at)]))
  }

  lemma ClosedItemIsValid(m: Image, at: Stamp)
    requires Accepted(m) && MayClose(m, at) && m.current.order.Some?
    ensures ValidClosed(ClosedItem(m, at), m.context.(generation := m.context.generation + 1))
  {
    hide ValidRequest, ValidPlan, Chained, Continues, PagesFit;
    EligibilityIsExact(m.current, false, at);
    ClosableScopeIsHistory(m.current, m.context, at);
    LaterContextKeepsScope(m.current, m.context, m.context.(generation := m.context.generation + 1), true);
    SealedByNow(m.current, m.context);
  }

  lemma SealedByNow(s: Scope, c: Context)
    requires ValidScope(s, c, false)
    ensures SealedBefore(s, c.generation + 1)
    ensures s.issuance.Some? ==> s.issuance.value.sealed <= c.generation
  {
  }

  lemma {:induction false} PrefixStaysLinked(items: seq<Closed>, item: Closed, k: nat)
    requires k < |items| && Linked(items, k)
    ensures Linked(items + [item], k)
  {
    assert (items + [item])[..k] == items[..k];
  }

  lemma ClosedItemIsLinked(m: Image, at: Stamp)
    requires Accepted(m) && MayClose(m, at) && m.current.order.Some?
    ensures Linked(All(m) + [ClosedItem(m, at)], |All(m)|)
  {
    hide ValidScope, Chained, PagesFit;
    var item, items := ClosedItem(m, at), All(m);
    var o := m.current.order.value;
    assert (items + [item])[..|items|] == items;
    forall k | 0 <= k < |items| ensures Follows(items[k], item) {
      assert ValidClosed(items[k], m.context);
    }
    if o.source.Some? {
      var j :| 0 <= j < |items| && Anchors(items[j], o, NONE, 0, KeyOf(m.current));
      assert Anchors(items[j], o, item.closedAt, item.closedGeneration, KeyOf(item.scope));
    }
  }

  lemma ClosingWasAllowed(m: Image, at: Stamp)
    requires Close(m, at).Some?
    ensures MayClose(m, at)
  {
    hide MayClose;
  }

  /** Closing an accepted store's request leaves an accepted store whose chain grew by exactly that request,
      over now with or without its certificate. */
  lemma CloseKeepsAccepted(m: Image, at: Stamp)
    requires Accepted(m) && Close(m, at).Some?
    ensures Accepted(Close(m, at).value) && TermsKnown(m.current)
    ensures var generation := m.context.generation + 1;
            All(Close(m, at).value) == All(m) + [Closed(generation, m.current.order.value.url, at, generation,
              if HasCertificate(m.current) then Complete else Expired, m.current)]
    ensures HasCertificate(m.current) || Overdue(m.current, at)
  {
    hide ValidScope, ValidClosed, Linked, Flat, Eligibility;
    ClosingWasAllowed(m, at);
    EligibilityIsExact(m.current, false, at);
    var m' := Close(m, at).value;
    var items := All(m);
    assert All(m') == items + [ClosedItem(m, at)];
    ClosedItemIsValid(m, at);
    ClosedItemIsLinked(m, at);
    EmptyScopeIsValid(m'.context);
    forall k | 0 <= k < |items| ensures ValidClosed(items[k], m'.context) && Linked(All(m'), k) {
      LaterContextKeepsClosed(items[k], m.context, m'.context);
      PrefixStaysLinked(items, ClosedItem(m, at), k);
    }
  }

  lemma EmptyScopeIsValid(c: Context)
    ensures ValidScope(EMPTY, c, false)
  {
  }

  // ---- Archiving ----

  predicate MayArchive(m: Image, at: Stamp) {
    && |m.active| >= MIN_ARCHIVE && |m.archives| < MAX_ARCHIVES && m.context.generation < StoreReserve.MAX_GENERATION
    && forall k | 0 <= k < |All(m)| :: All(m)[k].closedAt <= at
  }

  function Archive(m: Image, at: Stamp): Option<Image> {
    if !MayArchive(m, at) then None else
    Some(m.(context := m.context.(generation := m.context.generation + 1),
            archives := m.archives + [m.active], archived := m.archived + |m.active|, active := []))
  }

  lemma {:induction false} FlatAppends(pages: seq<seq<Closed>>, page: seq<Closed>)
    ensures Flat(pages + [page]) == Flat(pages) + page
  {
    if pages == [] {
      assert [page][1..] == [];
    } else {
      FlatAppends(pages[1..], page);
      assert (pages + [page])[1..] == pages[1..] + [page];
    }
  }

  /** Archiving moves the active page without changing any closed request or their order. */
  lemma ArchiveKeepsAccepted(m: Image, at: Stamp)
    requires Accepted(m) && MayArchive(m, at)
    ensures Archive(m, at).Some? && Accepted(Archive(m, at).value)
    ensures All(Archive(m, at).value) == All(m)
  {
    hide ValidScope, ValidClosed, Chained, Continues, Flat;
    var m' := Archive(m, at).value;
    FlatAppends(m.archives, m.active);
    assert All(m') == All(m);
    LaterContextKeepsScope(m.current, m.context, m'.context, false);
    forall k | 0 <= k < |All(m)| ensures ValidClosed(All(m)[k], m'.context) {
      LaterContextKeepsClosed(All(m)[k], m.context, m'.context);
    }
  }

  // ---- Deleting a saved pair ----

  function TombstoneItem(e: Closed, fp: string, now: Stamp, generation: nat): Closed {
    if Saved(e.scope, fp) then e.(scope := Tombstone(e.scope, fp, now, generation), sealed := generation) else e
  }

  function TombstonePage(page: seq<Closed>, fp: string, now: Stamp, generation: nat): (r: seq<Closed>)
    ensures |r| == |page| && forall k | 0 <= k < |page| :: r[k] == TombstoneItem(page[k], fp, now, generation)
  {
    seq(|page|, k requires 0 <= k < |page| => TombstoneItem(page[k], fp, now, generation))
  }

  function TombstonePages(pages: seq<seq<Closed>>, fp: string, now: Stamp, generation: nat): seq<seq<Closed>> {
    seq(|pages|, k requires 0 <= k < |pages| => TombstonePage(pages[k], fp, now, generation))
  }

  predicate MayDelete(m: Image, fp: string, now: Stamp) {
    && (m.current.order.Some? ==> m.current.order.value.source != Some(fp))
    && m.context.generation < StoreReserve.MAX_GENERATION && fp in m.context.records
    && Deletable(m.current, fp, now)
    && forall k | 0 <= k < |All(m)| :: Deletable(All(m)[k].scope, fp, now)
  }

  /** DeleteRecord: the record goes, and every scope that saved it keeps a tombstone. */
  function Delete(m: Image, fp: string, now: Stamp): Option<Image> {
    if !MayDelete(m, fp, now) then None else
    var generation := m.context.generation + 1;
    Some(m.(context := Without(m.context, fp),
            current := Tombstone(m.current, fp, now, generation),
            archives := TombstonePages(m.archives, fp, now, generation),
            active := TombstonePage(m.active, fp, now, generation)))
  }

  // The clock is not behind the closing of the request that saved the pair, nor of any closed renewal of it.
  predicate ClockCaughtUp(m: Image, fp: string, now: Stamp) {
    forall k | 0 <= k < |All(m)| ::
      Saved(All(m)[k].scope, fp) || Renews(All(m)[k].scope, fp) ==> now >= All(m)[k].closedAt
  }

  predicate Renews(s: Scope, fp: string) { s.order.Some? && s.order.value.source == Some(fp) }

  lemma {:induction false} TombstoneIsPointwise(pages: seq<seq<Closed>>, fp: string, now: Stamp, generation: nat)
    ensures Flat(TombstonePages(pages, fp, now, generation)) == TombstonePage(Flat(pages), fp, now, generation)
  {
    if pages != [] {
      TombstoneIsPointwise(pages[1..], fp, now, generation);
      assert TombstonePages(pages, fp, now, generation)[1..] == TombstonePages(pages[1..], fp, now, generation);
    }
  }

  lemma DeleteIsPointwise(m: Image, fp: string, now: Stamp)
    requires Delete(m, fp, now).Some?
    ensures All(Delete(m, fp, now).value) == TombstonePage(All(m), fp, now, m.context.generation + 1)
  {
    hide MayDelete;
    TombstoneIsPointwise(m.archives, fp, now, m.context.generation + 1);
  }

  // What the chain reads of one link: only deletion dates change, and only of the deleted certificate.
  lemma TombstoneKeepsAnchor(a: Closed, o: Order, closedAt: Stamp, closedGeneration: nat, newKey: string,
                             fp: string, now: Stamp, generation: nat)
    requires o.source.Some?
    requires o.source == Some(fp) ==> now != NONE && generation > closedGeneration
    ensures var a' := TombstoneItem(a, fp, now, generation);
            Anchors(a, o, closedAt, closedGeneration, newKey)
                && (o.source == Some(fp) ==> closedAt != NONE && now >= closedAt)
            ==> Anchors(a', o, closedAt, closedGeneration, newKey)
  {
  }

  lemma TombstoneKeepsBound(earlier: seq<Closed>, o: Order, closedAt: Stamp, closedGeneration: nat, newKey: string,
                            fp: string, now: Stamp, generation: nat)
    requires Bound(earlier, o, closedAt, closedGeneration, newKey)
    requires o.source == Some(fp) ==> now != NONE && generation > closedGeneration && closedAt != NONE
    ensures Bound(TombstonePage(earlier, fp, now, generation), o, closedAt, closedGeneration, newKey)
            <==> (o.source == Some(fp) ==> now >= closedAt)
  {
    hide Anchors, TombstoneItem;
    if o.source.Some? {
      var later := TombstonePage(earlier, fp, now, generation);
      var j :| 0 <= j < |earlier| && Anchors(earlier[j], o, closedAt, closedGeneration, newKey);
      TombstoneKeepsAnchor(earlier[j], o, closedAt, closedGeneration, newKey, fp, now, generation);
      if o.source == Some(fp) && now < closedAt {
        forall k | 0 <= k < |later| ensures !Anchors(later[k], o, closedAt, closedGeneration, newKey) {
          OnlySavedAnchors(earlier[k], o, closedAt, closedGeneration, newKey, fp, now, generation);
        }
      } else {
        assert Anchors(later[j], o, closedAt, closedGeneration, newKey);
      }
    }
  }

  lemma OnlySavedAnchors(a: Closed, o: Order, closedAt: Stamp, closedGeneration: nat, newKey: string,
                         fp: string, now: Stamp, generation: nat)
    requires o.source == Some(fp) && now != NONE && now < closedAt
    ensures !Anchors(TombstoneItem(a, fp, now, generation), o, closedAt, closedGeneration, newKey)
  {
  }

  lemma TombstoneKeepsKey(s: Scope, c: Context, fp: string, now: Stamp, generation: nat, historical: bool)
    requires ValidScope(s, c, historical)
    ensures var s' := Tombstone(s, fp, now, generation);
            KeyOf(s') == KeyOf(s) && s'.order == s.order
            && (forall f :: Saved(s', f) <==> Saved(s, f))
  {
    hide ValidOrder, ValidRequest, ValidPlan, ValidCompletion, ValidIntent;
  }

  lemma RenewalsHaveAnAnchor(m: Image, k: nat, fp: string, now: Stamp)
    requires Accepted(m) && MayDelete(m, fp, now) && k < |All(m)| && Renews(All(m)[k].scope, fp)
    ensures IsTime(now)
  {
    hide ValidScope, ValidClosed, PagesFit, Continues, Flat;
    var e := All(m)[k];
    assert Linked(All(m), k);
    var j :| 0 <= j < k && Anchors(All(m)[..k][j], e.scope.order.value, e.closedAt, e.closedGeneration, KeyOf(e.scope));
    assert Saved(All(m)[j].scope, fp);
  }

  lemma TombstoneKeepsLink(m: Image, k: nat, fp: string, now: Stamp)
    requires Accepted(m) && MayDelete(m, fp, now) && k < |All(m)|
    ensures Linked(TombstonePage(All(m), fp, now, m.context.generation + 1), k)
            <==> (Renews(All(m)[k].scope, fp) ==> now >= All(m)[k].closedAt)
  {
    hide ValidScope, PagesFit, Continues, Flat, Anchors, Bound, Tombstone, MayDelete;
    var items, generation := All(m), m.context.generation + 1;
    var items' := TombstonePage(items, fp, now, generation);
    var e := items[k];
    assert Linked(items, k) && ValidClosed(e, m.context);
    if Renews(e.scope, fp) { RenewalsHaveAnAnchor(m, k, fp, now); }
    assert items'[..k] == TombstonePage(items[..k], fp, now, generation);
    TombstoneKeepsBound(items[..k], e.scope.order.value, e.closedAt, e.closedGeneration, KeyOf(e.scope), fp, now,
        generation);
    TombstoneKeepsKey(e.scope, m.context, fp, now, generation, true);
    forall j | 0 <= j < k ensures Follows(items'[j], items'[k]) {
      assert Follows(items[j], items[k]) && ValidClosed(items[j], m.context);
      TombstoneKeepsFollows(items[j], items[k], fp, now, generation);
    }
  }

  lemma TombstoneKeepsFollows(a: Closed, b: Closed, fp: string, now: Stamp, generation: nat)
    requires Follows(a, b)
    ensures Follows(TombstoneItem(a, fp, now, generation), TombstoneItem(b, fp, now, generation))
  {
  }

  lemma TombstoneKeepsContinues(m: Image, fp: string, now: Stamp)
    requires Accepted(m) && MayDelete(m, fp, now)
    ensures Continues(TombstonePage(All(m), fp, now, m.context.generation + 1),
                      Tombstone(m.current, fp, now, m.context.generation + 1))
  {
    hide ValidScope, ValidClosed, PagesFit, Flat, Anchors, Bound, Chained;
    var items, generation := All(m), m.context.generation + 1;
    var items' := TombstonePage(items, fp, now, generation);
    TombstoneKeepsKey(m.current, m.context, fp, now, generation, false);
    if m.current.order.Some? {
      TombstoneKeepsBound(items, m.current.order.value, NONE, 0, KeyOf(m.current), fp, now, generation);
    }
  }

  /** Deleting a saved pair leaves an accepted store exactly when the clock has not fallen behind the
      closing of the request that saved it and of every closed renewal of it. Nothing re-reads the
      image before it is installed, so a clock that has fallen behind leaves an unreadable store. */
  lemma DeleteKeepsAccepted(m: Image, fp: string, now: Stamp)
    requires Accepted(m) && Delete(m, fp, now).Some?
    ensures Accepted(Delete(m, fp, now).value) <==> ClockCaughtUp(m, fp, now)
  {
    hide ValidScope, ValidClosed, Flat, Linked, Continues, TombstoneItem, Tombstone, Deletable, Saved, Renews;
    var m' := Delete(m, fp, now).value;
    var items, items' := All(m), All(m');
    DeleteIsPointwise(m, fp, now);
    TombstoneIsPointwise(m.archives, fp, now, m.context.generation + 1);
    TombstoneKeepsScope(m.current, m.context, fp, now, false);
    TombstoneKeepsContinues(m, fp, now);
    forall k | 0 <= k < |items|
      ensures ValidClosed(items'[k], m'.context) <==> (Saved(items[k].scope, fp) ==> now >= items[k].closedAt)
      ensures Linked(items', k) <==> (Renews(items[k].scope, fp) ==> now >= items[k].closedAt)
    {
      TombstoneItemKeepsClosed(items[k], m.context, fp, now);
      TombstoneKeepsLink(m, k, fp, now);
    }
  }

  lemma TombstoneItemKeepsClosed(e: Closed, c: Context, fp: string, now: Stamp)
    requires ValidClosed(e, c) && Deletable(e.scope, fp, now) && fp in c.records
    ensures ValidClosed(TombstoneItem(e, fp, now, c.generation + 1), Without(c, fp))
            <==> (Saved(e.scope, fp) ==> now >= e.closedAt)
  {
    hide ValidClosed;
    TombstoneKeepsClosed(e, c, fp, now);
  }

  /** A clock that fell behind between closing a request and deleting its pair: the deletion is
      granted, and what it installs can no longer be opened. */
  lemma DeletionBehindTheClock() returns (m: Image, now: Stamp)
    ensures Accepted(m) && Delete(m, "F", now).Some? && !Accepted(Delete(m, "F", now).value)
  {
    m := OneCompletedRequest(YEAR_2020);
    now := YEAR_2020 + 50;
    DeleteKeepsAccepted(m, "F", now);
    assert Saved(All(m)[0].scope, "F");
  }

  // A store with one closed request, closed a hundred seconds after t, whose pair is saved as F.
  lemma OneCompletedRequest(t: Stamp) returns (m: Image)
    requires t == YEAR_2020
    ensures Accepted(m) && |All(m)| == 1 && Saved(All(m)[0].scope, "F") && All(m)[0].closedAt == t + 100
    ensures Completed(All(m)[0].scope).value.savedAt == t + 4 && !Renews(All(m)[0].scope, "F")
    ensures m.current == EMPTY && m.context.records.Keys == {"F"} && m.context.generation == 9
  {
    hide Linked, Continues;
    var scope, context := CompletedScope(t);
    var item := Closed(9, "U", t + 100, 9, Complete, scope);
    m := Image(context, EMPTY, [], [item], 0);
    assert All(m) == [item];
    assert ValidClosed(item, context) by { hide ValidScope; }
    FirstLinkHolds(m);
  }

  lemma CompletedScope(t: Stamp) returns (s: Scope, c: Context)
    requires t == YEAR_2020
    ensures ValidScope(s, c, true) && s.order.Some? && s.order.value.url == "U" && s.order.value.source.None?
    ensures SealedBefore(s, 9) && s.issuance.Some? && s.issuance.value.sealed == 8
    ensures Completed(s) == Some(Completion("F", t + 4, 8, NONE))
    ensures c.generation == 9 && c.records.Keys == {"F"}
  {
    var order := Order(5, StoreReserve.DomainVerified, "U", t, t + 9000, t + 1, "A", ["n"], None);
    var request := Request(8, "U", t + 2, "A", ["n"], "K", Some("F"), 6);
    var issuance := Issuance(8, t + 3, 7, "A", "K", "U", ["n"], NONE, t + 9000, Some(Completion("F", t + 4, 8, NONE)));
    s := Scope(Some(order), Some(request), Some(issuance), None);
    c := Context(9, Account("A", t), map["F" := Stored(t + 4, 8, "K")]);
    hide ValidPlan;
    assert ValidOrder(order, c) && ValidRequest(request, s, c);
    assert ValidIssuance(issuance, s, c);
  }

  lemma FirstLinkHolds(m: Image)
    requires |All(m)| == 1 && All(m)[0].scope.order.Some? && All(m)[0].scope.order.value.source.None?
              && m.current == EMPTY
    ensures Chained(All(m)) && Continues(All(m), m.current)
  {
  }

  // ---- Importing certificates ----

  /** Append: new public certificates join the records; the image is installed without being re-read. */
  function Import(m: Image, added: set<string>, at: Stamp): Option<Image> {
    if m.context.generation >= StoreReserve.MAX_GENERATION || !(added !! m.context.records.Keys) then None else
    Some(m.(context := Imported(m.context, added, at)))
  }

  function Imported(c: Context, added: set<string>, at: Stamp): Context {
    c.(generation := c.generation + 1,
       records := c.records + (map fp | fp in added :: Stored(at, c.generation + 1, "")))
  }

  predicate Buried(s: Scope, added: set<string>) {
    Completed(s).Some? && Completed(s).value.deletedAt != NONE && Completed(s).value.fingerprint in added
  }

  lemma ImportKeepsScope(s: Scope, c: Context, added: set<string>, at: Stamp, historical: bool)
    requires ValidScope(s, c, historical) && added !! c.records.Keys
    ensures ValidScope(s, Imported(c, added, at), historical) <==> !Buried(s, added)
  {
    hide DnsRecord.Accepted, ValidIntent;
  }

  lemma ImportKeepsClosed(e: Closed, c: Context, added: set<string>, at: Stamp)
    requires ValidClosed(e, c) && added !! c.records.Keys
    ensures ValidClosed(e, Imported(c, added, at)) <==> !Buried(e.scope, added)
  {
    hide ValidScope, Eligibility, Buried;
    ImportKeepsScope(e.scope, c, added, at, true);
  }

  /** Importing leaves an accepted store exactly when no imported certificate is one whose saved pair
      was deleted: a tombstone refuses every store that lists its certificate again. */
  lemma ImportKeepsAccepted(m: Image, added: set<string>, at: Stamp)
    requires Accepted(m) && Import(m, added, at).Some?
    ensures Accepted(Import(m, added, at).value) <==>
            !Buried(m.current, added) && forall k | 0 <= k < |All(m)| :: !Buried(All(m)[k].scope, added)
  {
    hide ValidScope, ValidClosed, Flat, Chained, Continues, Buried, Imported;
    var m' := Import(m, added, at).value;
    assert All(m') == All(m);
    ImportKeepsScope(m.current, m.context, added, at, false);
    forall k | 0 <= k < |All(m)| ensures ValidClosed(All(m)[k], m'.context) <==> !Buried(All(m)[k].scope, added) {
      ImportKeepsClosed(All(m)[k], m.context, added, at);
    }
  }

  /** An accepted store whose saved pair was deleted in good time: importing its certificate again is
      granted, and what is installed can no longer be opened. */
  lemma ImportOfDeleted() returns (m: Image, at: Stamp)
    ensures Accepted(m) && Import(m, {"F"}, at).Some? && !Accepted(Import(m, {"F"}, at).value)
  {
    hide Accepted, ValidScope, ValidClosed, Linked, Continues;
    var before := OneCompletedRequest(YEAR_2020);
    var now := YEAR_2020 + 200;
    at := now + 1;
    DeleteKeepsAccepted(before, "F", now);
    DeleteIsPointwise(before, "F", now);
    m := Delete(before, "F", now).value;
    assert m.context.records.Keys == {};
    assert All(m)[0] == TombstoneItem(All(before)[0], "F", now, before.context.generation + 1);
    assert Buried(All(m)[0].scope, {"F"});
    ImportKeepsAccepted(m, {"F"}, at);
  }

  // ---- Whole histories ----

  /** resealRecord: an owner or location note reseals one record under the next generation, with its
      certificate, import stamp and import generation as they were; the image is installed without being
      re-read. */
  function Reseal(m: Image, fp: string): Option<Image> {
    if m.context.generation >= StoreReserve.MAX_GENERATION || fp !in m.context.records then None
    else Some(m.(context := m.context.(generation := m.context.generation + 1)))
  }

  /** Resealing a record's notes always leaves an accepted store, its chain untouched. */
  lemma ResealKeepsAccepted(m: Image, fp: string)
    requires Accepted(m) && Reseal(m, fp).Some?
    ensures Accepted(Reseal(m, fp).value) && All(Reseal(m, fp).value) == All(m)
  {
    hide ValidScope, ValidClosed, Chained, Continues, Flat;
    var m' := Reseal(m, fp).value;
    LaterContextKeepsScope(m.current, m.context, m'.context, false);
    forall k | 0 <= k < |All(m)| ensures ValidClosed(All(m)[k], m'.context) {
      LaterContextKeepsClosed(All(m)[k], m.context, m'.context);
    }
  }

  // Every operation opens the store first. Deleting, importing and resealing install what they seal
  // unread; all other writers, which may change the open request and what it is read against, open what
  // they have sealed before it is installed.
  datatype Operation =
    | Closing(at: Stamp)
    | Archiving(at: Stamp)
    | Deleting(fp: string, now: Stamp)
    | Importing(added: set<string>, at: Stamp)
    | Resealing(fp: string)
    | Writing(context: Context, current: Scope)

  function Planned(m: Image, o: Operation): Option<Image> {
    match o
    case Closing(at) => Close(m, at)
    case Archiving(at) => Archive(m, at)
    case Deleting(fp, now) => Delete(m, fp, now)
    case Importing(added, at) => Import(m, added, at)
    case Resealing(fp) => Reseal(m, fp)
    case Writing(context, current) =>
      var next := m.(context := context, current := current);
      if context.generation == m.context.generation + 1 && Accepted(next) then Some(next) else None
  }

  // An image that does not open stays as it is: no operation gets past reading it.
  function Perform(m: Image, o: Operation): Image {
    if Accepted(m) && Planned(m, o).Some? then Planned(m, o).value else m
  }

  function Run(m: Image, operations: seq<Operation>): Image {
    if operations == [] then m
    else Perform(Run(m, operations[..|operations| - 1]), operations[|operations| - 1])
  }

  // A granted deletion whose clock has caught up, a granted import that brings nothing buried back.
  predicate Harmless(m: Image, o: Operation) {
    Planned(m, o).Some? ==>
      && (o.Deleting? ==> ClockCaughtUp(m, o.fp, o.now))
      && (o.Importing? ==>
            !Buried(m.current, o.added) && forall k | 0 <= k < |All(m)| :: !Buried(All(m)[k].scope, o.added))
  }

  lemma PerformKeepsAccepted(m: Image, o: Operation)
    requires Accepted(m)
    ensures Accepted(Perform(m, o)) <==> Harmless(m, o)
  {
    hide Accepted, Close, Archive, Delete, Import, Reseal, ClockCaughtUp, Buried, All;
    if Planned(m, o).Some? {
      match o
      case Closing(at) => CloseKeepsAccepted(m, at);
      case Archiving(at) => ArchivingWasAllowed(m, at); ArchiveKeepsAccepted(m, at);
      case Deleting(fp, now) => DeleteKeepsAccepted(m, fp, now);
      case Importing(added, at) => ImportKeepsAccepted(m, added, at);
      case Resealing(fp) => ResealKeepsAccepted(m, fp);
      case Writing(_, _) =>
    }
  }

  lemma ArchivingWasAllowed(m: Image, at: Stamp)
    requires Archive(m, at).Some?
    ensures MayArchive(m, at)
  {
    hide MayArchive;
  }

  // Every operation was harmless where it was made.
  predicate AllHarmless(m: Image, operations: seq<Operation>) {
    operations == []
    || (AllHarmless(m, operations[..|operations| - 1])
        && Harmless(Run(m, operations[..|operations| - 1]), operations[|operations| - 1]))
  }

  /** Over any history of closing, archiving, deleting, importing, notes and other writes the store stays
      accepted if and only if every granted deletion found a clock that had caught up and no granted
      import brought back a buried certificate. */
  lemma {:induction false} HistoriesStayAccepted(m: Image, operations: seq<Operation>)
    requires Accepted(m)
    ensures Accepted(Run(m, operations)) <==> AllHarmless(m, operations)
  {
    if operations != [] {
      hide Accepted, Planned, Harmless;
      var front, last := operations[..|operations| - 1], operations[|operations| - 1];
      HistoriesStayAccepted(m, front);
      if Accepted(Run(m, front)) {
        PerformKeepsAccepted(Run(m, front), last);
      }
    }
  }

  // ---- When a request may be closed ----

  /** A request is closed if and only if its plan owes nothing, its order's address and terms are known, the
      clock is behind nothing on record, there is room, and it saved a certificate or its deadline has come;
      the reason recorded says which, and nothing else in the store changes. */
  lemma ClosingIsGrantedExactly(m: Image, at: Stamp)
    ensures Close(m, at).Some? <==>
              && OwesNothing(m.current) && TermsKnown(m.current) && BehindNothing(m.current, at)
              && (forall k | 0 <= k < |All(m)| :: All(m)[k].closedAt <= at)
              && |m.active| < 32 && m.context.generation < 1000000
              && (HasCertificate(m.current) || Overdue(m.current, at))
    ensures Close(m, at).Some? ==>
              var m' := Close(m, at).value;
              var generation := m.context.generation + 1;
              && m'.active == m.active + [Closed(generation, m.current.order.value.url, at, generation,
                   if HasCertificate(m.current) then Complete else Expired, m.current)]
              && m'.current == Scope(None, None, None, None) && m'.archives == m.archives && m'.archived == m.archived
              && m'.context == Context(generation, m.context.account, m.context.records)
  {
    hide All, Eligibility;
    EligibilityIsExact(m.current, false, at);
  }

  // What a closed request was when it was closed.
  predicate WasOver(e: Closed) {
    && TermsKnown(e.scope) && e.id == e.scope.order.value.url
    && if HasCertificate(e.scope) then
         e.reason == Complete && e.scope.issuance.value.completion.value.savedAt <= e.closedAt
       else e.reason == Expired && Overdue(e.scope, e.closedAt) && BehindNothing(e.scope, e.closedAt)
  }

  /** Over every history that leaves a store readable, whatever is closed, archived, deleted or imported: no
      request without its certificate stands closed before its deadline, and the reason on record is right. */
  lemma NothingLiveIsClosed(m: Image, operations: seq<Operation>)
    requires Accepted(m) && AllHarmless(m, operations)
    ensures var later := Run(m, operations); forall k | 0 <= k < |All(later)| :: WasOver(All(later)[k])
  {
    hide Run, All, WasOver, ValidClosed, AllHarmless;
    HistoriesStayAccepted(m, operations);
    var later := Run(m, operations);
    forall k | 0 <= k < |All(later)| ensures WasOver(All(later)[k]) {
      ClosedWasOver(All(later)[k], later.context);
    }
  }

  lemma ClosedWasOver(e: Closed, c: Context)
    requires ValidClosed(e, c)
    ensures WasOver(e)
  {
    hide ValidRequest, ValidPlan;
  }

  // ---- What an accepted store says of its requests ----

  // The scope saved this certificate.
  predicate Bears(s: Scope, fp: string) {
    HasCertificate(s) && s.issuance.value.completion.value.fingerprint == fp
  }

  // A request that renews the certificate another one saved: of the same account and for the same names,
  // ordered after that one was closed, under a key of its own.
  predicate Renewed(a: Closed, s: Scope, fp: string) {
    && Bears(a.scope, fp) && s.order.Some?
    && var i, o := a.scope.issuance.value, s.order.value;
    && i.account == o.account && i.names == o.names && a.closedAt <= o.started && a.closedGeneration < o.sealed
    && (s.issuance.Some? && s.issuance.value.startedAt != NONE ==>
          s.issuance.value.key == "" || s.issuance.value.key != i.key)
    && (s.request.Some? && (s.issuance.None? || s.issuance.value.startedAt == NONE) ==>
          s.request.value.key == "" || s.request.value.key != i.key)
  }

  /** In an accepted store every closed request is numbered, dated and named apart from all before it, no
      certificate was saved twice, and whatever renews a certificate, open or closed, renews one saved by an
      earlier request of the same account and names, under another key. */
  lemma AcceptedRequestsAreInOrder(m: Image, k: nat)
    requires Accepted(m) && k <= |All(m)|
    ensures var items := All(m);
            k < |items| ==>
              && (forall j | 0 <= j < k ::
                    && items[j].id != items[k].id && items[j].closedGeneration < items[k].closedGeneration
                    && items[j].closedAt <= items[k].closedAt
                    && !(HasCertificate(items[k].scope)
                         && Bears(items[j].scope, items[k].scope.issuance.value.completion.value.fingerprint)))
              && items[k].scope.order.Some?
              && (items[k].scope.order.value.source.Some? ==>
                    exists j | 0 <= j < k :: Renewed(items[j], items[k].scope, items[k].scope.order.value.source.value))
    ensures m.current.order.Some? && m.current.order.value.source.Some? ==>
              exists j | 0 <= j < |All(m)| :: Renewed(All(m)[j], m.current, m.current.order.value.source.value)
  {
    hide ValidScope, ValidClosed, PagesFit, Flat, All;
    var items := All(m);
    if k < |items| {
      assert Linked(items, k);
      forall j | 0 <= j < k ensures Follows(items[j], items[k]) {
      }
      var o := items[k].scope.order.value;
      if o.source.Some? {
        var j :| 0 <= j < k && Anchors(items[..k][j], o, items[k].closedAt, items[k].closedGeneration,
                                       KeyOf(items[k].scope));
        assert Renewed(items[j], items[k].scope, o.source.value);
      }
    }
    if m.current.order.Some? && m.current.order.value.source.Some? {
      var o := m.current.order.value;
      var j :| 0 <= j < |items| && Anchors(items[j], o, NONE, 0, KeyOf(m.current));
      assert Renewed(items[j], m.current, o.source.value);
    }
  }

  // What deleting a certificate leaves of a scope that saved it: its completion, dated, and no request.
  predicate Buries(s: Scope, s': Scope, fp: string, now: Stamp, generation: nat) {
    if Bears(s, fp) then
      var i := s.issuance.value;
      s' == Scope(s.order, None,
                  Some(Issuance(generation, i.startedAt, i.startedGeneration, i.account, i.key, i.order, i.names,
                                i.checkedAt, i.expires,
                                Some(Completion(fp, i.completion.value.savedAt, i.completion.value.generation, now)))),
                  s.plan)
    else s' == s
  }

  /** A saved pair is deleted if and only if it is there, the open request does not renew it, there is a
      generation left, and the clock is a time not before it was saved wherever it was; it and nothing else
      leaves the records, every scope that saved it is buried, and no closed request changes otherwise. */
  lemma DeletionIsGrantedExactly(m: Image, fp: string, now: Stamp)
    ensures Delete(m, fp, now).Some? <==>
              && fp in m.context.records && m.context.generation < 1000000
              && (m.current.order.Some? ==> m.current.order.value.source != Some(fp))
              && forall s | s == m.current || exists k :: 0 <= k < |All(m)| && s == All(m)[k].scope ::
                   (Bears(s, fp) ==>
                      YEAR_2020 <= now < YEAR_10000 && s.issuance.value.completion.value.savedAt <= now)
    ensures Delete(m, fp, now).Some? ==>
              var m', generation := Delete(m, fp, now).value, m.context.generation + 1;
              && m'.context == Context(generation, m.context.account, m.context.records - {fp})
              && Buries(m.current, m'.current, fp, now, generation)
              && |m'.archives| == |m.archives| && |m'.active| == |m.active| && m'.archived == m.archived
              && |All(m')| == |All(m)|
              && forall k | 0 <= k < |All(m)| ::
                   var e, e' := All(m)[k], All(m')[k];
                   && Buries(e.scope, e'.scope, fp, now, generation)
                   && e' == Closed(if Bears(e.scope, fp) then generation else e.sealed, e.id, e.closedAt,
                                   e.closedGeneration, e.reason, e'.scope)
  {
    hide All;
    if Delete(m, fp, now).Some? { DeleteIsPointwise(m, fp, now); }
  }

  /** The active page is archived if and only if it holds sixteen closed requests, fewer than four pages are
      archived, there is a generation left and the clock is behind no closing; it becomes the last page. */
  lemma ArchivingIsGrantedExactly(m: Image, at: Stamp)
    ensures Archive(m, at).Some? <==>
              && |m.active| >= 16 && |m.archives| < 4 && m.context.generation < 1000000
              && forall k | 0 <= k < |All(m)| :: All(m)[k].closedAt <= at
    ensures Archive(m, at).Some? ==>
              Archive(m, at).value == Image(Context(m.context.generation + 1, m.context.account, m.context.records),
                m.current, m.archives + [m.active], [], m.archived + |m.active|)
  {
    hide All;
  }

  /** An import adds exactly the certificates it brings, all of them new, with their import's own date and
      generation and no key; a note changes no record at all. */
  lemma ImportsAreExact(m: Image, added: set<string>, at: Stamp, fp: string)
    ensures Import(m, added, at).Some? <==>
              m.context.generation < 1000000 && forall f | f in added :: f !in m.context.records
    ensures Import(m, added, at).Some? ==>
              var m' := Import(m, added, at).value;
              && m'.(context := m.context) == m && m'.context.account == m.context.account
              && m'.context.generation == m.context.generation + 1
              && (forall f :: f in m'.context.records <==> f in m.context.records || f in added)
              && (forall f | f in added :: m'.context.records[f] == Stored(at, m.context.generation + 1, ""))
              && (forall f | f in m.context.records :: m'.context.records[f] == m.context.records[f])
    ensures Reseal(m, fp).Some? <==> m.context.generation < 1000000 && fp in m.context.records
    ensures Reseal(m, fp).Some? ==>
              Reseal(m, fp).value == m.(context := Context(m.context.generation + 1, m.context.account,
                m.context.records))
  {
  }
}
