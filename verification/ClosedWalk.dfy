/**
 The loops over closed requests, as the source runs them: resealing one item in place across the
 archive pages, tombstoning a deleted pair, and authenticating the chain with its running summaries
 (sealClosedRequest, deleteClosedCompletion and authenticateClosedRequests in
 internal/inventorystore/closed_requests.go).
 */
module ClosedWalk {
  import opened Common
  import opened ClosedScope
  import opened ClosedArchive

  predicate SameShape(a: seq<seq<Closed>>, b: seq<seq<Closed>>) {
    |a| == |b| && forall k | 0 <= k < |a| :: |a[k]| == |b[k]|
  }

  lemma {:induction false} SplitFlat(pages: seq<seq<Closed>>, k: nat)
    requires k < |pages|
    ensures Flat(pages) == Flat(pages[..k]) + pages[k] + Flat(pages[k + 1..])
  {
    if k > 0 {
      SplitFlat(pages[1..], k - 1);
      assert pages[1..][..k - 1] == pages[..k][1..];
      assert pages[1..][k..] == pages[k + 1..];
      assert pages[..k][0] == pages[0];
    } else {
      assert pages[..0] == [];
    }
  }

  // A list cut into pages of known lengths can be cut in one way only.
  lemma {:induction false} PagesAreDetermined(a: seq<seq<Closed>>, b: seq<seq<Closed>>)
    requires SameShape(a, b) && Flat(a) == Flat(b)
    ensures a == b
  {
    if a != [] {
      assert a[0] == Flat(a)[..|a[0]|] == Flat(b)[..|b[0]|] == b[0];
      assert Flat(a[1..]) == Flat(a)[|a[0]|..] == Flat(b)[|b[0]|..] == Flat(b[1..]);
      PagesAreDetermined(a[1..], b[1..]);
    }
  }

  lemma PageUpdateIsPointUpdate(pages: seq<seq<Closed>>, k: nat, index: nat, item: Closed)
    requires k < |pages| && index < |pages[k]|
    ensures var at := |Flat(pages[..k])| + index;
            at < |Flat(pages)| && Flat(pages[k := pages[k][index := item]]) == Flat(pages)[at := item]
  {
    var after := pages[k := pages[k][index := item]];
    SplitFlat(pages, k);
    SplitFlat(after, k);
    assert after[..k] == pages[..k] && after[k + 1..] == pages[k + 1..];
  }

  class Requests {
    var archives: seq<seq<Closed>>
    var active: seq<Closed>

    constructor (a: seq<seq<Closed>>, c: seq<Closed>)
      ensures archives == a && active == c
    { archives, active := a, c; }

    function All(): seq<Closed>
      reads this
    { Flat(archives) + active }

    /** sealClosedRequest: appends when the index is negative, otherwise replaces exactly that item of
        the chronological list, on whichever page it lies. */
    method Seal(index: int, item: Closed) returns (ok: bool)
      modifies this
      ensures ok == (index < |old(All())|)
      ensures !ok ==> archives == old(archives) && active == old(active)
      ensures index < 0 ==> archives == old(archives) && active == old(active) + [item]
      ensures 0 <= index < |old(All())| ==>
                All() == old(All())[index := item] && SameShape(archives, old(archives)) && |active| == |old(active)|
    {
      if index < 0 {
        active := active + [item];
        return true;
      }
      var rest := index;
      for k := 0 to |archives|
        invariant archives == old(archives) && active == old(active)
        invariant rest >= 0 && index == |Flat(archives[..k])| + rest
      {
        SplitFlat(archives, k);
        assert archives[..k + 1] == archives[..k] + [archives[k]];
        FlatAppends(archives[..k], archives[k]);
        if rest < |archives[k]| {
          PageUpdateIsPointUpdate(archives, k, rest, item);
          archives := archives[k := archives[k][rest := item]];
          assert Flat(archives) + active == (Flat(old(archives)) + active)[index := item];
          return true;
        }
        rest := rest - |archives[k]|;
      }
      assert archives[..|archives|] == archives;
      if rest >= |active| { return false; }
      active := active[rest := item];
      ok := true;
    }

    /** deleteClosedCompletion: refuses when a matching tombstone cannot be dated, otherwise tombstones
        every matching item where it lies. */
    method DeleteCompletion(fp: string, now: Stamp, generation: nat) returns (ok: bool)
      modifies this
      ensures ok <==> forall k | 0 <= k < |old(All())| :: Deletable(old(All())[k].scope, fp, now)
      ensures ok ==> archives == TombstonePages(old(archives), fp, now, generation)
                     && active == TombstonePage(old(active), fp, now, generation)
    {
      hide Saved, Deletable, TombstoneItem, Flat;
      var items := All();
      ghost var was, tail := archives, active;
      for i := 0 to |items|
        invariant SameShape(archives, was) && |active| == |tail|
        invariant forall k | 0 <= k < i :: Deletable(items[k].scope, fp, now)
        invariant |All()| == |items|
        invariant forall k | 0 <= k < |items| ::
                    All()[k] == if k < i then TombstoneItem(items[k], fp, now, generation) else items[k]
      {
        Untouched(items[i], fp, now, generation);
        if Saved(items[i].scope, fp) {
          if !Deletable(items[i].scope, fp, now) { return false; }
          var sealed := Seal(i, TombstoneItem(items[i], fp, now, generation));
        }
      }
      assert All() == TombstonePage(items, fp, now, generation);
      PagesFollowTheList(was, tail, archives, active, fp, now, generation);
      ok := true;
    }
  }

  lemma Untouched(e: Closed, fp: string, now: Stamp, generation: nat)
    ensures !Saved(e.scope, fp) ==> TombstoneItem(e, fp, now, generation) == e && Deletable(e.scope, fp, now)
  {
  }

  lemma PagesFollowTheList(was: seq<seq<Closed>>, tail: seq<Closed>, now: seq<seq<Closed>>, end: seq<Closed>,
                           fp: string, at: Stamp, generation: nat)
    requires SameShape(now, was) && Flat(now) + end == TombstonePage(Flat(was) + tail, fp, at, generation)
    ensures now == TombstonePages(was, fp, at, generation) && end == TombstonePage(tail, fp, at, generation)
  {
    hide TombstoneItem, Flat;
    var pages := TombstonePages(was, fp, at, generation);
    TombstoneIsPointwise(was, fp, at, generation);
    SameShapeSameLength(now, pages);
    var n := |Flat(now)|;
    assert TombstonePage(Flat(was) + tail, fp, at, generation) == Flat(pages) + TombstonePage(tail, fp, at, generation);
    assert Flat(now) == (Flat(now) + end)[..n] == Flat(pages);
    assert end == (Flat(now) + end)[n..];
    PagesAreDetermined(now, pages);
  }

  lemma {:induction false} SameShapeSameLength(a: seq<seq<Closed>>, b: seq<seq<Closed>>)
    requires SameShape(a, b)
    ensures |Flat(a)| == |Flat(b)|
  {
    if a != [] {
      SameShapeSameLength(a[1..], b[1..]);
    }
  }

  // ---- Authenticating the chain ----

  // What a later renewal is checked against.
  datatype Anchor = Anchor(
    names: seq<string>, account: string, key: string, closedAt: Stamp, closedGeneration: nat,
    deletedAt: Stamp, deletedGeneration: nat)

  function AnchorOf(e: Closed): Anchor
    requires Completed(e.scope).Some?
  {
    var i := e.scope.issuance.value;
    Anchor(i.names, i.account, i.key, e.closedAt, e.closedGeneration, Completed(e.scope).value.deletedAt, i.sealed)
  }

  predicate CheckBinding(o: Order, closedAt: Stamp, closedGeneration: nat, newKey: string, anchors: map<string,
      Anchor>) {
    if o.source.None? then true
    else if o.source.value !in anchors then false else
    var a := anchors[o.source.value];
    && a.account == o.account && a.names == o.names && a.closedAt <= o.started && a.closedGeneration < o.sealed
    && !(newKey != "" && newKey == a.key)
    && !(a.deletedAt != NONE
         && (closedAt == NONE || a.deletedAt < closedAt || a.deletedGeneration <= closedGeneration))
  }

  // The running summaries after a prefix of the list.
  datatype Summary = Summary(
    seen: set<string>, lastGeneration: nat, lastAt: Stamp, primary: set<string>, anchors: map<string, Anchor>)

  predicate Lists(items: seq<Closed>, id: string) { exists k | 0 <= k < |items| :: items[k].id == id }

  predicate Saves(items: seq<Closed>, fp: string) { exists k | 0 <= k < |items| :: Saved(items[k].scope, fp) }

  ghost predicate Summarizes(t: Summary, items: seq<Closed>, current: Scope) {
    && (forall id :: id in t.seen <==>
          Lists(items, id) || (id != "" && current.order.Some? && current.order.value.url == id))
    && (forall k | 0 <= k < |items| :: items[k].closedGeneration <= t.lastGeneration && items[k].closedAt <= t.lastAt)
    && (if |items| == 0 then t.lastGeneration == 0 && t.lastAt == NONE
        else t.lastGeneration == items[|items| - 1].closedGeneration && t.lastAt == items[|items| - 1].closedAt)
    && SummarizesPairs(t, items, current)
  }

  ghost predicate SummarizesPairs(t: Summary, items: seq<Closed>, current: Scope) {
    && (forall fp :: fp in t.primary <==> Saved(current, fp) || Saves(items, fp))
    && (forall fp :: fp in t.anchors <==> Saves(items, fp))
    && (forall k | 0 <= k < |items| :: Anchored(t.anchors, items[k]))
  }

  predicate Anchored(anchors: map<string, Anchor>, e: Closed) {
    Completed(e.scope).Some? ==>
      var fp := Completed(e.scope).value.fingerprint; fp in anchors && anchors[fp] == AnchorOf(e)
  }

  lemma BindingIsLookedUp(t: Summary, items: seq<Closed>, current: Scope, o: Order, closedAt: Stamp,
      closedGeneration: nat, newKey: string)
    requires SummarizesPairs(t, items, current)
    ensures CheckBinding(o, closedAt, closedGeneration, newKey, t.anchors) <==>
            Bound(items, o, closedAt, closedGeneration, newKey)
  {
    if o.source.Some? {
      if CheckBinding(o, closedAt, closedGeneration, newKey, t.anchors) {
        assert Saves(items, o.source.value);
        var k :| 0 <= k < |items| && Saved(items[k].scope, o.source.value);
        assert Anchored(t.anchors, items[k]) && Anchors(items[k], o, closedAt, closedGeneration, newKey);
      }
      if Bound(items, o, closedAt, closedGeneration, newKey) {
        var k :| 0 <= k < |items| && Anchors(items[k], o, closedAt, closedGeneration, newKey);
        assert Anchored(t.anchors, items[k]) && Saved(items[k].scope, o.source.value);
      }
    }
  }

  function Advance(t: Summary, e: Closed): Summary {
    var pair := Completed(e.scope);
    t.(seen := t.seen + {e.id}, lastGeneration := e.closedGeneration, lastAt := e.closedAt,
       primary := if pair.Some? then t.primary + {pair.value.fingerprint} else t.primary,
       anchors := if pair.Some? then t.anchors[pair.value.fingerprint := AnchorOf(e)] else t.anchors)
  }

  // One item's checks against the summaries.
  predicate Admits(t: Summary, e: Closed, context: Context) {
    && ValidClosed(e, context)
    && e.id !in t.seen && e.closedGeneration > t.lastGeneration && e.closedAt >= t.lastAt
    && CheckBinding(e.scope.order.value, e.closedAt, e.closedGeneration, KeyOf(e.scope), t.anchors)
    && (Completed(e.scope).Some? ==> Completed(e.scope).value.fingerprint !in t.primary)
  }

  lemma AppendLists(items: seq<Closed>, e: Closed)
    ensures forall id :: Lists(items + [e], id) <==> Lists(items, id) || id == e.id
    ensures forall fp :: Saves(items + [e], fp) <==> Saves(items, fp) || Saved(e.scope, fp)
  {
    var more := items + [e];
    assert more[|items|] == e;
    forall id | Lists(items, id) ensures Lists(more, id) {
      var k :| 0 <= k < |items| && items[k].id == id;
      assert more[k].id == id;
    }
    forall fp | Saves(items, fp) ensures Saves(more, fp) {
      var k :| 0 <= k < |items| && Saved(items[k].scope, fp);
      assert Saved(more[k].scope, fp);
    }
  }

  lemma AdvanceSummarizesPairs(t: Summary, items: seq<Closed>, e: Closed, current: Scope)
    requires SummarizesPairs(t, items, current)
    requires Completed(e.scope).Some? ==> Completed(e.scope).value.fingerprint !in t.primary
    ensures SummarizesPairs(Advance(t, e), items + [e], current)
  {
    hide AnchorOf, Saves, Lists;
    AppendLists(items, e);
    var more, t' := items + [e], Advance(t, e);
    forall k | 0 <= k < |more| ensures Anchored(t'.anchors, more[k]) {
      if k < |items| {
        assert Anchored(t.anchors, items[k]);
      }
    }
  }

  lemma AdvanceSummarizes(t: Summary, items: seq<Closed>, e: Closed, current: Scope)
    requires Summarizes(t, items, current) && e.closedGeneration > t.lastGeneration && e.closedAt >= t.lastAt
    requires Completed(e.scope).Some? ==> Completed(e.scope).value.fingerprint !in t.primary
    ensures Summarizes(Advance(t, e), items + [e], current)
  {
    hide SummarizesPairs, AnchorOf, Lists, Saves;
    AdvanceSummarizesPairs(t, items, e, current);
    AppendLists(items, e);
  }

  // Not in conflict with the open request: another address, another certificate.
  predicate Apart(e: Closed, current: Scope) {
    && (current.order.Some? ==> e.id != current.order.value.url)
    && (Completed(current).Some? ==> !Saved(e.scope, Completed(current).value.fingerprint))
  }

  lemma SummariesSeeConflicts(t: Summary, earlier: seq<Closed>, e: Closed, current: Scope)
    requires Summarizes(t, earlier, current) && e.id != "" && e.closedGeneration >= 4 && e.closedAt > NONE
    ensures (&& e.id !in t.seen && e.closedGeneration > t.lastGeneration && e.closedAt >= t.lastAt
             && (Completed(e.scope).Some? ==> Completed(e.scope).value.fingerprint !in t.primary))
            <==> Apart(e, current) && forall j | 0 <= j < |earlier| :: Follows(earlier[j], e)
  {
    if forall j | 0 <= j < |earlier| :: Follows(earlier[j], e) {
      assert !Lists(earlier, e.id);
      if Completed(e.scope).Some? {
        assert !Saves(earlier, Completed(e.scope).value.fingerprint);
      }
      if |earlier| > 0 { assert Follows(earlier[|earlier| - 1], e); }
    }
    if e.id !in t.seen && e.closedGeneration > t.lastGeneration && e.closedAt >= t.lastAt
       && (Completed(e.scope).Some? ==> Completed(e.scope).value.fingerprint !in t.primary) {
      forall j | 0 <= j < |earlier| ensures Follows(earlier[j], e) {
        assert Lists(earlier, earlier[j].id);
        if Completed(earlier[j].scope).Some? {
          assert Saved(earlier[j].scope, Completed(earlier[j].scope).value.fingerprint);
        }
      }
    }
  }

  /** The summaries decide exactly whether the next item extends the chain. */
  lemma AdmittedItemsAreLinked(t: Summary, items: seq<Closed>, k: nat, current: Scope, context: Context)
    requires k < |items| && Summarizes(t, items[..k], current)
    ensures Admits(t, items[k], context) <==>
            ValidClosed(items[k], context) && Linked(items, k) && Apart(items[k], current)
  {
    var e := items[k];
    if ValidClosed(e, context) {
      ClosedIdsAreReal(e, context);
      hide ValidClosed, ValidScope, CheckBinding, Bound, Follows, Apart;
      SummariesSeeConflicts(t, items[..k], e, current);
      BindingIsLookedUp(t, items[..k], current, e.scope.order.value, e.closedAt, e.closedGeneration, KeyOf(e.scope));
      assert (forall j | 0 <= j < k :: Follows(items[j], e))
          <==> (forall j | 0 <= j < |items[..k]| :: Follows(items[..k][j], e)) by {
        assert forall j | 0 <= j < k :: items[..k][j] == items[j];
      }
    }
  }

  lemma ClosedIdsAreReal(e: Closed, c: Context)
    requires ValidClosed(e, c)
    ensures e.id != "" && e.scope.order.Some? && e.closedGeneration >= 4 && e.closedAt > NONE
  {
    hide ValidRequest, ValidPlan;
  }

  method CheckPages(m: Image) returns (ok: bool)
    ensures ok <==> PagesFit(m)
  {
    if |m.active| > MAX_CLOSED || |m.archives| > MAX_ARCHIVES { return false; }
    var archived := 0;
    for k := 0 to |m.archives|
      invariant archived == |Flat(m.archives[..k])|
      invariant forall j | 0 <= j < k :: MIN_ARCHIVE <= |m.archives[j]| <= MAX_CLOSED
    {
      if |m.archives[k]| < MIN_ARCHIVE || |m.archives[k]| > MAX_CLOSED { return false; }
      assert m.archives[..k + 1] == m.archives[..k] + [m.archives[k]];
      FlatAppends(m.archives[..k], m.archives[k]);
      archived := archived + |m.archives[k]|;
    }
    assert m.archives[..|m.archives|] == m.archives;
    ok := archived == m.archived;
  }

  /** authenticateClosedRequests, run on a store whose open request has been read: accepts exactly
      the accepted stores. */
  method Authenticate(m: Image) returns (ok: bool)
    requires ValidScope(m.current, m.context, false)
    ensures ok <==> ClosedArchive.Accepted(m)
  {
    hide ValidScope, ValidClosed, Admits, Linked, Summarizes, PagesFit, Bound, CheckBinding;
    var sized := CheckPages(m);
    if !sized { return false; }
    var o := m.current.order;
    var items := Flat(m.archives) + m.active;
    var t := Start(m.current);
    StartSummarizes(m.current);
    for i := 0 to |items|
      invariant Summarizes(t, items[..i], m.current)
      invariant forall k | 0 <= k < i ::
                  ValidClosed(items[k], m.context) && Linked(items, k) && Apart(items[k], m.current)
    {
      AdmittedItemsAreLinked(t, items, i, m.current, m.context);
      if !Admits(t, items[i], m.context) {
        if ClosedArchive.Accepted(m) { AcceptedIsApart(m, i); }
        return false;
      }
      StepSummary(t, items, i, m.current, m.context);
      t := Advance(t, items[i]);
    }
    assert items[..|items|] == items == All(m);
    LastChecks(t, m);
    ok := o.Some? ==>
      && (|items| > 0 ==> o.value.sealed > t.lastGeneration && o.value.started >= t.lastAt)
      && CheckBinding(o.value, NONE, 0, KeyOf(m.current), t.anchors);
  }

  function Start(current: Scope): Summary {
    Summary(if current.order.Some? && current.order.value.url != "" then {current.order.value.url} else {}, 0, NONE,
            if Completed(current).Some? then {Completed(current).value.fingerprint} else {}, map[])
  }

  lemma StartSummarizes(current: Scope)
    ensures Summarizes(Start(current), [], current)
  {
  }

  lemma StepSummary(t: Summary, items: seq<Closed>, i: nat, current: Scope, context: Context)
    requires i < |items| && Summarizes(t, items[..i], current) && Admits(t, items[i], context)
    ensures Summarizes(Advance(t, items[i]), items[..i + 1], current)
  {
    hide Summarizes, ValidClosed, CheckBinding;
    AdvanceSummarizes(t, items[..i], items[i], current);
    assert items[..i + 1] == items[..i] + [items[i]];
  }

  lemma AcceptedIsApart(m: Image, k: nat)
    requires ClosedArchive.Accepted(m) && k < |All(m)|
    ensures Apart(All(m)[k], m.current) && ValidClosed(All(m)[k], m.context) && Linked(All(m), k)
  {
    hide ValidScope, ValidClosed, Linked, Bound, Flat;
  }

  lemma LastChecks(t: Summary, m: Image)
    requires Summarizes(t, All(m), m.current) && PagesFit(m) && ValidScope(m.current, m.context, false)
    requires forall k | 0 <= k < |All(m)| ::
               ValidClosed(All(m)[k], m.context) && Linked(All(m), k) && Apart(All(m)[k], m.current)
    ensures ClosedArchive.Accepted(m) <==>
            (m.current.order.Some? ==>
               && (|All(m)| > 0 ==>
                     m.current.order.value.sealed > t.lastGeneration && m.current.order.value.started >= t.lastAt)
               && CheckBinding(m.current.order.value, NONE, 0, KeyOf(m.current), t.anchors))
  {
    hide ValidScope, ValidClosed, Linked, Bound, CheckBinding, Flat, PagesFit, AnchorOf;
    if m.current.order.Some? {
      BindingIsLookedUp(t, All(m), m.current, m.current.order.value, NONE, 0, KeyOf(m.current));
    }
  }
}
