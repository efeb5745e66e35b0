/**
 Market presence: which Tools are active, which Providers therefore are, and the two
 aggregate counts kept beside the tables. A refresh walks the publications in pages
 of twenty and re-evaluates readiness that time has taken away.
 */
module MarketPresence {
  import opened Wrappers

  const PAGE_SIZE: nat := 20

  datatype ActiveTool = ActiveTool(business: string, activatedAt: nat)

  /** The tables, and the aggregates that count them. */
  datatype Presence = Presence(
    tools: map<string, ActiveTool>, providers: map<string, nat>, toolCount: int, providerCount: int)

  datatype Sync = Sync(toolRef: string, business: string, active: bool, now: nat)

  datatype Disposition = CurrentDisposition | OtherDisposition
  datatype Publication = Publication(
    toolRef: string, business: string, disposition: Disposition, reviewRequired: bool,
    credentialReady: bool, healthy: bool, readinessValidUntil: Option<nat>)

  // ---- what one sync does ----

  predicate HasTool(tools: map<string, ActiveTool>, business: string) {
    exists t :: t in tools && tools[t].business == business
  }

  function SyncProvider(s: Presence, business: string, now: nat): Presence {
    if HasTool(s.tools, business) && business !in s.providers then
      s.(providers := s.providers[business := now], providerCount := s.providerCount + 1)
    else if !HasTool(s.tools, business) && business in s.providers then
      s.(providers := s.providers - {business}, providerCount := s.providerCount - 1)
    else s
  }

  function SyncToolRow(s: Presence, i: Sync): Presence {
    if i.active && i.toolRef !in s.tools then
      s.(tools := s.tools[i.toolRef := ActiveTool(i.business, i.now)], toolCount := s.toolCount + 1)
    else if !i.active && i.toolRef in s.tools then
      s.(tools := s.tools - {i.toolRef}, toolCount := s.toolCount - 1)
    else s
  }

  function SyncTool(s: Presence, i: Sync): Presence { SyncProvider(SyncToolRow(s, i), i.business, i.now) }

  /** The readiness condition of a publication at one time. */
  predicate ReadyAt(p: Publication, now: nat) {
    && p.disposition.CurrentDisposition? && !p.reviewRequired && p.credentialReady && p.healthy
    && (if p.readinessValidUntil.Some? then p.readinessValidUntil.value else 0) > now
  }

  function SyncOf(p: Publication, now: nat): Sync { Sync(p.toolRef, p.business, ReadyAt(p, now), now) }

  function SyncAll(s: Presence, syncs: seq<Sync>): Presence {
    if syncs == [] then s else SyncTool(SyncAll(s, syncs[..|syncs| - 1]), syncs[|syncs| - 1])
  }

  /** The syncs of a walk over publications, each at the time its page was read. */
  function SyncsOf(ps: seq<Publication>, at: seq<nat>): seq<Sync>
    requires |at| == |ps|
  {
    seq(|ps|, i requires 0 <= i < |ps| => SyncOf(ps[i], at[i]))
  }

  /** The state after the first `n` publications of a walk. */
  function Walked(s: Presence, ps: seq<Publication>, at: seq<nat>, n: nat): Presence
    requires n <= |ps| == |at|
  {
    SyncAll(s, SyncsOf(ps[..n], at[..n]))
  }

  /** One clock value for every publication of a page. */
  function Same(now: nat, count: nat): seq<nat> { seq(count, _ => now) }

  /** How many publications the page at a cursor holds. */
  function PageSize(total: nat, cursor: nat): nat
    requires cursor <= total
  {
    if cursor + PAGE_SIZE <= total then PAGE_SIZE else total - cursor
  }

  /** The time at which each publication is read, when page `k` of the chain runs at `clocks(k)`. */
  function PageTimes(total: nat, clocks: nat -> nat): seq<nat> {
    seq(total, i requires 0 <= i => clocks(i / PAGE_SIZE))
  }

  /** What the page at a cursor does, all at one time. */
  function PageDone(s: Presence, ps: seq<Publication>, from: nat, now: nat): Presence
    requires from <= |ps|
  {
    var size := PageSize(|ps|, from);
    SyncAll(s, SyncsOf(ps[from..from + size], Same(now, size)))
  }

  /** What page `k` does, at its own time. */
  function PageStep(ps: seq<Publication>, clocks: nat -> nat): (Presence, nat) -> Presence {
    (s: Presence, k: nat) => if PAGE_SIZE * k <= |ps| then PageDone(s, ps, PAGE_SIZE * k, clocks(k)) else s
  }

  /** The scheduled chain from page `page` on, over `total` publications. */
  function Chain(s: Presence, step: (Presence, nat) -> Presence, total: nat, page: nat): Presence
    decreases total - PAGE_SIZE * page
  {
    if PAGE_SIZE * (page + 1) < total then Chain(step(s, page), step, total, page + 1) else step(s, page)
  }

  // ---- the tables ----

  class PresenceTables {
    var tools: map<string, ActiveTool>
    var providers: map<string, nat>
    var toolCount: int
    var providerCount: int

    constructor ()
      ensures Current() == Presence(map[], map[], 0, 0)
    {
      tools, providers, toolCount, providerCount := map[], map[], 0, 0;
    }

    function Current(): Presence
      reads this
    {
      Presence(tools, providers, toolCount, providerCount)
    }

    method SyncMarketToolPresence(input: Sync)
      modifies this
      ensures Current() == SyncTool(old(Current()), input)
    {
      var existing := input.toolRef in tools;
      if input.active && !existing {
        tools := tools[input.toolRef := ActiveTool(input.business, input.now)];
        toolCount := toolCount + 1;
      }
      if !input.active && existing {
        tools := tools - {input.toolRef};
        toolCount := toolCount - 1;
      }
      SyncProviderPresence(input.business, input.now);
    }

    method SyncProviderPresence(business: string, now: nat)
      modifies this`providers, this`providerCount
      ensures Current() == SyncProvider(old(Current()), business, now)
    {
      var tool, provider := HasTool(tools, business), business in providers;
      if tool && !provider {
        providers := providers[business := now];
        providerCount := providerCount + 1;
      }
      if !tool && provider {
        providers := providers - {business};
        providerCount := providerCount - 1;
      }
    }

    /** The aggregates answer the table sizes wherever every sync kept them counted. */
    method CountMarketPresence() returns (toolTotal: int, providerTotal: int)
      requires Counted(Current())
      ensures toolTotal == |tools| && providerTotal == |providers|
    {
      toolTotal, providerTotal := toolCount, providerCount;
    }

    /** One page of the refresh, from a cursor; the next cursor is absent when the walk is complete. */
    method Refresh(publications: seq<Publication>, cursor: nat, now: nat) returns (processed: nat, next: Option<nat>)
      requires cursor <= |publications|
      modifies this
      ensures processed == PageSize(|publications|, cursor)
      ensures Current() == PageDone(old(Current()), publications, cursor, now)
      ensures next == if cursor + processed < |publications| then Some(cursor + processed) else None
    {
      processed := if cursor + PAGE_SIZE <= |publications| then PAGE_SIZE else |publications| - cursor;
      var page := publications[cursor..cursor + processed];
      for i := 0 to |page|
        invariant Current() == SyncAll(old(Current()), SyncsOf(page[..i], Same(now, i)))
      {
        SyncMarketToolPresence(Sync(page[i].toolRef, page[i].business, ReadyAt(page[i], now), now));
        assert SyncsOf(page[..i + 1], Same(now, i + 1))[..i] == SyncsOf(page[..i], Same(now, i));
      }
      assert page[..|page|] == page;
      next := if cursor + processed < |publications| then Some(cursor + processed) else None;
    }

    /** Page `page` and the pages it schedules; page `k` reads the clock `clocks(k)`. */
    method RefreshFrom(publications: seq<Publication>, clocks: nat -> nat, page: nat)
      requires PAGE_SIZE * page <= |publications|
      modifies this
      ensures Current() == Chain(old(Current()), PageStep(publications, clocks), |publications|, page)
      decreases |publications| - PAGE_SIZE * page
    {
      var processed, next := Refresh(publications, PAGE_SIZE * page, clocks(page));
      if next.Some? { RefreshFrom(publications, clocks, page + 1); }
    }

    /** The whole refresh, from its first page. */
    method RefreshAll(publications: seq<Publication>, clocks: nat -> nat)
      modifies this
      ensures Current() == SyncAll(old(Current()), SyncsOf(publications, PageTimes(|publications|, clocks)))
    {
      RefreshFrom(publications, clocks, 0);
      ChainIsWalk(old(Current()), publications, clocks);
    }
  }

  lemma {:induction false} SyncAllSplit(s: Presence, a: seq<Sync>, b: seq<Sync>)
    ensures SyncAll(s, a + b) == SyncAll(SyncAll(s, a), b)
  {
    if b == [] {
      assert a + b == a;
    } else {
      SyncAllSplit(s, a, b[..|b| - 1]);
      assert (a + b)[..|a + b| - 1] == a + b[..|b| - 1];
    }
  }

  /** Page `k` holds the publications from `20 * k` on, all read at its own time. */
  lemma TimesOfPage(total: nat, clocks: nat -> nat, page: nat)
    requires PAGE_SIZE * page <= total
    ensures var from, size := PAGE_SIZE * page, PageSize(total, PAGE_SIZE * page);
            PageTimes(total, clocks)[from..from + size] == Same(clocks(page), size)
  {
    var from, size := PAGE_SIZE * page, PageSize(total, PAGE_SIZE * page);
    forall i | from <= i < from + size
      ensures PageTimes(total, clocks)[i] == clocks(page)
    {
      assert i / PAGE_SIZE == page;
    }
  }

  /** The syncs of one page lead the walk on. */
  lemma NextPage(s: Presence, ps: seq<Publication>, clocks: nat -> nat, page: nat)
    requires PAGE_SIZE * page <= |ps|
    ensures var times, from := PageTimes(|ps|, clocks), PAGE_SIZE * page;
            PageDone(Walked(s, ps, times, from), ps, from, clocks(page))
            == Walked(s, ps, times, from + PageSize(|ps|, from))
  {
    var from := PAGE_SIZE * page;
    TimesOfPage(|ps|, clocks, page);
    PagesJoin(s, ps, PageTimes(|ps|, clocks), from, from + PageSize(|ps|, from), clocks(page));
  }

  /** A chain whose pages lead from one stage of a walk to the next leads to its end. */
  lemma {:induction false} ChainReaches(walked: nat -> Presence, step: (Presence, nat) -> Presence, total: nat, page: nat)
    requires PAGE_SIZE * page <= total
    requires forall k: nat :: PAGE_SIZE * k <= total ==>
               step(walked(PAGE_SIZE * k), k) == walked(PAGE_SIZE * k + PageSize(total, PAGE_SIZE * k))
    ensures Chain(walked(PAGE_SIZE * page), step, total, page) == walked(total)
    decreases total - PAGE_SIZE * page
  {
    if PAGE_SIZE * (page + 1) < total { ChainReaches(walked, step, total, page + 1); }
  }

  /** The whole chain syncs every publication once, in order, at its page's time. */
  lemma ChainIsWalk(s: Presence, ps: seq<Publication>, clocks: nat -> nat)
    ensures Chain(s, PageStep(ps, clocks), |ps|, 0) == SyncAll(s, SyncsOf(ps, PageTimes(|ps|, clocks)))
  {
    var times := PageTimes(|ps|, clocks);
    var walked := (n: nat) => if n <= |ps| then Walked(s, ps, times, n) else s;
    forall k: nat | PAGE_SIZE * k <= |ps|
      ensures PageStep(ps, clocks)(walked(PAGE_SIZE * k), k) == walked(PAGE_SIZE * k + PageSize(|ps|, PAGE_SIZE * k))
    {
      NextPage(s, ps, clocks, k);
    }
    ChainReaches(walked, PageStep(ps, clocks), |ps|, 0);
    assert ps[..|ps|] == ps && times[..|ps|] == times;
    assert SyncsOf(ps[..0], times[..0]) == [];
  }

  lemma SyncsJoin(ps: seq<Publication>, at: seq<nat>, from: nat, end: nat)
    requires from <= end <= |ps| == |at|
    ensures SyncsOf(ps[..from], at[..from]) + SyncsOf(ps[from..end], at[from..end]) == SyncsOf(ps[..end], at[..end])
  {
  }

  lemma PagesJoin(s: Presence, ps: seq<Publication>, at: seq<nat>, from: nat, end: nat, now: nat)
    requires from <= end <= |ps| == |at| && at[from..end] == Same(now, end - from)
    ensures SyncAll(Walked(s, ps, at, from), SyncsOf(ps[from..end], Same(now, end - from))) == Walked(s, ps, at, end)
  {
    SyncsJoin(ps, at, from, end);
    SyncAllSplit(s, SyncsOf(ps[..from], at[..from]), SyncsOf(ps[from..end], at[from..end]));
  }

  // ---- counts ----

  predicate Counted(s: Presence) { s.toolCount == |s.tools| && s.providerCount == |s.providers| }

  lemma ToolRowKeepsCounts(s: Presence, i: Sync)
    requires Counted(s)
    ensures Counted(SyncToolRow(s, i))
  {
    var after := SyncToolRow(s, i);
    if i.active && i.toolRef !in s.tools { assert after.tools.Keys == s.tools.Keys + {i.toolRef}; }
    if !i.active && i.toolRef in s.tools { assert after.tools.Keys == s.tools.Keys - {i.toolRef}; }
  }

  lemma ProviderKeepsCounts(s: Presence, business: string, now: nat)
    requires Counted(s)
    ensures Counted(SyncProvider(s, business, now))
  {
    var after := SyncProvider(s, business, now);
    if HasTool(s.tools, business) && business !in s.providers {
      assert after.providers.Keys == s.providers.Keys + {business};
    } else if !HasTool(s.tools, business) && business in s.providers {
      assert after.providers.Keys == s.providers.Keys - {business};
    }
  }

  /** Every sync keeps both counts equal to their tables. */
  lemma SyncKeepsCounts(s: Presence, i: Sync)
    requires Counted(s)
    ensures Counted(SyncTool(s, i))
  {
    ToolRowKeepsCounts(s, i);
    ProviderKeepsCounts(SyncToolRow(s, i), i.business, i.now);
  }

  /** What one sync writes: its own Tool and its own Provider, each stamped when it comes, and the counts. */
  lemma SyncWrites(s: Presence, i: Sync)
    ensures var after, was := SyncTool(s, i), i.toolRef in s.tools;
            && (forall t :: t != i.toolRef ==> (t in after.tools <==> t in s.tools) && (t in s.tools ==> after.tools[t] == s.tools[t]))
            && (i.toolRef in after.tools <==> i.active)
            && (i.active ==> after.tools[i.toolRef] == if was then s.tools[i.toolRef] else ActiveTool(i.business, i.now))
            && after.toolCount == s.toolCount + (if i.active && !was then 1 else if !i.active && was then -1 else 0)
            && (forall b :: b != i.business ==>
                  (b in after.providers <==> b in s.providers) && (b in s.providers ==> after.providers[b] == s.providers[b]))
            && (i.business in after.providers <==> exists t :: t in after.tools && after.tools[t].business == i.business)
            && (i.business in after.providers ==>
                  after.providers[i.business] == if i.business in s.providers then s.providers[i.business] else i.now)
            && after.providerCount == s.providerCount + (if i.business in after.providers && i.business !in s.providers then 1
                                                         else if i.business !in after.providers && i.business in s.providers then -1
                                                         else 0)
  {
    assert forall t :: t in SyncTool(s, i).tools ==> t in SyncToolRow(s, i).tools;
  }

  // ---- providers agree with tools ----

  /** A Provider is present exactly when one of its Tools is active. */
  ghost predicate Agrees(s: Presence) {
    forall b: string :: b in s.providers <==> HasTool(s.tools, b)
  }

  /** A sync that removes the last Tool of a business other than the one it names. */
  predicate Orphans(s: Presence, i: Sync) {
    && !i.active && i.toolRef in s.tools && s.tools[i.toolRef].business != i.business
    && !HasTool(s.tools - {i.toolRef}, s.tools[i.toolRef].business)
  }

  lemma ToolRowElsewhere(s: Presence, i: Sync, b: string)
    requires b != i.business && (i.toolRef in s.tools ==> s.tools[i.toolRef].business != b || i.active)
    ensures HasTool(SyncToolRow(s, i).tools, b) <==> HasTool(s.tools, b)
  {
    var after := SyncToolRow(s, i).tools;
    if HasTool(s.tools, b) {
      var t :| t in s.tools && s.tools[t].business == b;
      assert t in after && after[t].business == b;
    }
  }

  /** A sync keeps the agreement exactly when it orphans no other business. */
  lemma SyncAgreesIff(s: Presence, i: Sync)
    requires Agrees(s)
    ensures Agrees(SyncTool(s, i)) <==> !Orphans(s, i)
  {
    var mid, after := SyncToolRow(s, i), SyncTool(s, i);
    assert after.tools == mid.tools;
    if Orphans(s, i) {
      var b := s.tools[i.toolRef].business;
      assert HasTool(s.tools, b);
      assert b in after.providers && !HasTool(after.tools, b);
    } else {
      forall b: string
        ensures b in after.providers <==> HasTool(after.tools, b)
      {
        if b != i.business {
          if i.toolRef in s.tools && s.tools[i.toolRef].business == b && !i.active {
            assert mid.tools == s.tools - {i.toolRef};
            assert HasTool(s.tools, b);
          } else {
            ToolRowElsewhere(s, i, b);
          }
        }
      }
    }
  }

  /** Each active Tool belongs to its one owner. */
  ghost predicate Owned(s: Presence, owner: string -> string) {
    forall t :: t in s.tools ==> s.tools[t].business == owner(t)
  }

  lemma SyncStaysOwned(s: Presence, i: Sync, owner: string -> string)
    requires Owned(s, owner) && i.business == owner(i.toolRef)
    ensures Owned(SyncTool(s, i), owner) && !Orphans(s, i)
  {
  }

  lemma OwnedSync(s: Presence, i: Sync, owner: string -> string)
    requires Agrees(s) && Counted(s) && Owned(s, owner) && i.business == owner(i.toolRef)
    ensures Agrees(SyncTool(s, i)) && Counted(SyncTool(s, i)) && Owned(SyncTool(s, i), owner)
  {
    SyncStaysOwned(s, i, owner);
    SyncAgreesIff(s, i);
    SyncKeepsCounts(s, i);
  }

  /** When each Tool belongs to one business, any syncs at any times keep counts and agreement. */
  lemma {:induction false} OwnedSyncsAgree(s: Presence, syncs: seq<Sync>, owner: string -> string)
    requires Agrees(s) && Counted(s) && Owned(s, owner)
    requires forall k :: 0 <= k < |syncs| ==> syncs[k].business == owner(syncs[k].toolRef)
    ensures Agrees(SyncAll(s, syncs)) && Counted(SyncAll(s, syncs)) && Owned(SyncAll(s, syncs), owner)
  {
    if syncs != [] {
      OwnedSyncsAgree(s, syncs[..|syncs| - 1], owner);
      OwnedSync(SyncAll(s, syncs[..|syncs| - 1]), syncs[|syncs| - 1], owner);
    }
  }

  // ---- a full refresh ----

  /** Where a walk meets a Tool last, if it does. */
  function LastFor(ps: seq<Publication>, toolRef: string): (k: Option<nat>)
    ensures k.Some? ==> k.value < |ps| && ps[k.value].toolRef == toolRef
    ensures forall j :: (if k.Some? then k.value + 1 else 0) <= j < |ps| ==> ps[j].toolRef != toolRef
  {
    if ps == [] then None
    else if ps[|ps| - 1].toolRef == toolRef then Some(|ps| - 1)
    else LastFor(ps[..|ps| - 1], toolRef)
  }

  /** A sync decides its own Tool and no other. */
  lemma SyncDecides(s: Presence, i: Sync, toolRef: string)
    ensures toolRef in SyncTool(s, i).tools <==> if i.toolRef == toolRef then i.active else toolRef in s.tools
  {
  }

  /**
   After a full refresh, whatever time each page was read at, a Tool is active exactly when
   its last publication was ready at its own time; a Tool without one is untouched.
   */
  lemma {:induction false} RefreshFollowsLast(s: Presence, ps: seq<Publication>, at: seq<nat>, toolRef: string)
    requires |at| == |ps|
    ensures var after, last := SyncAll(s, SyncsOf(ps, at)), LastFor(ps, toolRef);
            toolRef in after.tools
            <==> if last.Some? then ReadyAt(ps[last.value], at[last.value]) else toolRef in s.tools
  {
    if ps != [] {
      RefreshFollowsLast(s, ps[..|ps| - 1], at[..|ps| - 1], toolRef);
      assert SyncsOf(ps, at)[..|ps| - 1] == SyncsOf(ps[..|ps| - 1], at[..|ps| - 1]);
      SyncDecides(SyncAll(s, SyncsOf(ps[..|ps| - 1], at[..|ps| - 1])), SyncOf(ps[|ps| - 1], at[|ps| - 1]), toolRef);
    }
  }

  /**
   After the scheduled chain of pages, the last of which may run long after the first, a Tool
   is active exactly when its last publication, at position `k`, was ready when page `k / 20` ran.
   */
  lemma PagesFollowLast(s: Presence, ps: seq<Publication>, clocks: nat -> nat, toolRef: string)
    ensures var after, last := SyncAll(s, SyncsOf(ps, PageTimes(|ps|, clocks))), LastFor(ps, toolRef);
            toolRef in after.tools
            <==> if last.Some? then ReadyAt(ps[last.value], clocks(last.value / PAGE_SIZE)) else toolRef in s.tools
  {
    RefreshFollowsLast(s, ps, PageTimes(|ps|, clocks), toolRef);
  }

  /**
   The same on the publication's own fields, which a deadline that was never set does not satisfy:
   a Tool of the walk is active exactly when its last publication is the current one, needs no
   review, has its credential, is healthy and was still within its deadline when its page ran.
   */
  lemma PagesShowWhatIsReady(s: Presence, ps: seq<Publication>, clocks: nat -> nat, k: nat)
    requires k < |ps| && forall j :: k < j < |ps| ==> ps[j].toolRef != ps[k].toolRef
    ensures ps[k].toolRef in SyncAll(s, SyncsOf(ps, PageTimes(|ps|, clocks))).tools
            <==> && ps[k].disposition == CurrentDisposition && ps[k].credentialReady && ps[k].healthy && !ps[k].reviewRequired
                 && ps[k].readinessValidUntil != None && clocks(k / 20) < ps[k].readinessValidUntil.value
  {
    PagesFollowLast(s, ps, clocks, ps[k].toolRef);
    assert LastFor(ps, ps[k].toolRef) == Some(k);
  }

  /**
   With one publication per Tool and every active row backed by one, a full refresh leaves
   active exactly the Tools whose publication was ready when its page was read.
   */
  lemma RefreshIsExact(s: Presence, ps: seq<Publication>, at: seq<nat>, toolRef: string)
    requires |at| == |ps| && forall i, j :: 0 <= i < j < |ps| ==> ps[i].toolRef != ps[j].toolRef
    requires forall t :: t in s.tools ==> exists k :: 0 <= k < |ps| && ps[k].toolRef == t
    ensures toolRef in SyncAll(s, SyncsOf(ps, at)).tools
            <==> exists k :: 0 <= k < |ps| && ps[k].toolRef == toolRef && ReadyAt(ps[k], at[k])
  {
    RefreshFollowsLast(s, ps, at, toolRef);
    var last := LastFor(ps, toolRef);
    assert last.None? ==> forall k :: 0 <= k < |ps| ==> ps[k].toolRef != toolRef;
  }
}
