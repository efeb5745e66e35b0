/**
 The directory analytics backfill: a rebuild of derived rows, five retained rows per
 delivery, resumable from a cursor that belongs to one projection version, while
 ingestion rewrites retained rows. No row is added or removed while it runs.
 */
module DirectoryBackfill {
  import opened Wrappers

  const PAGE_SIZE: nat := 5
  const PROJECTION_LIMIT: nat := 130
  const NETWORK_LIMIT: nat := 128

  /** A retained row. `eligibleIn` lists the projection versions that find its content eligible. */
  datatype Entry = Entry(resource: string, content: nat, facets: set<string>, eligibleIn: set<nat>)

  /** What `searchAnalytics` computes is decided by version, row and network. */
  datatype Analytics = Analytics(version: nat, resource: string, content: nat, network: string)

  datatype Projection = Projection(network: string, analytics: Analytics, eligible: bool)

  /** Derived rows: search projections, the eligible facet mirror, and the analytics memberships of each version. */
  datatype Tables = Tables(
    projections: map<string, seq<Projection>>, mirror: set<(string, string)>, written: set<(nat, string)>)

  datatype Status = Missing | Building | Ready
  datatype StatsStatus = StatsMissing | StatsPending | StatsReady

  datatype Generation = Generation(
    version: Option<nat>, status: Status, processed: Option<nat>, cursor: Option<nat>, stats: StatsStatus, ingested: nat)

  datatype Kind = StaleAnswer | BuildingAnswer | ReadyAnswer
  datatype Answer = Answer(kind: Kind, processed: nat)

  /**
   `covered` lists the row positions reprojected since the current rebuild began, and `foreign`
   those ingested since then under another version and not reprojected; the program stores neither.
   */
  datatype State = State(
    tables: Tables, generation: Generation, batches: nat, finalizes: nat, covered: seq<nat>, foreign: set<nat>)

  // ---- one row ----

  function Projections(t: Tables, resource: string): seq<Projection> {
    if resource in t.projections then t.projections[resource] else []
  }

  /** The projections one mutation reads: at most 130 of them. */
  function Taken(t: Tables, resource: string): nat {
    if |Projections(t, resource)| <= PROJECTION_LIMIT then |Projections(t, resource)| else PROJECTION_LIMIT
  }

  /** What ingestion leaves for one resource: nothing, or the wildcard, then at most 128 networks, which it throws above. */
  predicate Indexed(ps: seq<Projection>) {
    ps == [] || (|ps| <= NETWORK_LIMIT + 1 && ps[0].network == "*")
  }

  predicate WildcardEligible(ps: seq<Projection>) {
    ps != [] && (if ps[0].network == "*" then ps[0].eligible else WildcardEligible(ps[1..]))
  }

  function Projected(version: nat, row: Entry, network: string): Projection {
    Projection(network, Analytics(version, row.resource, row.content, network), version in row.eligibleIn)
  }

  function Reprojected(version: nat, row: Entry, p: Projection): Projection { Projected(version, row, p.network) }

  function ReprojectFirst(version: nat, row: Entry, ps: seq<Projection>, n: nat): seq<Projection>
    requires n <= |ps|
  {
    seq(n, i requires 0 <= i < n => Reprojected(version, row, ps[i])) + ps[n..]
  }

  function MirrorKeys(row: Entry): set<(string, string)> { set f | f in row.facets :: (f, row.resource) }

  /** Adds or removes the eligible-only memberships, only when eligibility changed. */
  function Toggle(mirror: set<(string, string)>, row: Entry, eligible: bool, before: bool): set<(string, string)> {
    if eligible == before then mirror
    else if eligible then mirror + MirrorKeys(row) else mirror - MirrorKeys(row)
  }

  function ReprojectRow(version: nat, t: Tables, row: Entry): Tables {
    var ps, n := Projections(t, row.resource), Taken(t, row.resource);
    Tables(
      if row.resource in t.projections then t.projections[row.resource := ReprojectFirst(version, row, ps, n)]
      else t.projections,
      if n > 0 then Toggle(t.mirror, row, version in row.eligibleIn, WildcardEligible(ps[..n])) else t.mirror,
      t.written + {(version, row.resource)})
  }

  /** The whole-table rebuild, one row after another. */
  function ReprojectAll(version: nat, t: Tables, rows: seq<Entry>): Tables {
    if rows == [] then t else ReprojectRow(version, ReprojectAll(version, t, rows[..|rows| - 1]), rows[|rows| - 1])
  }

  // ---- ingestion of one row ----

  /** The projections an identity rewrite inserts. */
  function Inserted(version: nat, row: Entry, networks: seq<string>): seq<Projection> {
    var all := ["*"] + networks;
    seq(|all|, i requires 0 <= i < |all| => Projected(version, row, all[i]))
  }

  /** An identity rewrite: fresh projections, and the mirror of the old facets replaced by that of the new ones. */
  function Rewritten(version: nat, t: Tables, before: Entry, row: Entry, networks: seq<string>): Tables {
    var ps := Projections(t, row.resource);
    var cleared := if ps != [] && ps[0].eligible then t.mirror - MirrorKeys(before) else t.mirror;
    Tables(t.projections[row.resource := Inserted(version, row, networks)],
           if version in row.eligibleIn then cleared + MirrorKeys(row) else cleared,
           t.written + {(version, row.resource)})
  }

  // ---- one delivery ----

  /** Pagination may only learn that a full last page was the last one on the next, empty page. */
  predicate IsDone(rows: seq<Entry>, from: nat, lastPageKnown: bool) {
    from + PAGE_SIZE > |rows| || (from + PAGE_SIZE == |rows| && lastPageKnown)
  }

  function PageEnd(rows: seq<Entry>, from: nat): nat {
    if from + PAGE_SIZE <= |rows| then from + PAGE_SIZE else if from <= |rows| then |rows| else from
  }

  /** The rows after a cursor, at most five. A cursor past the end, which no run stores, reads none. */
  function PageOf(rows: seq<Entry>, from: nat): seq<Entry> {
    if from <= |rows| then rows[from..PageEnd(rows, from)] else []
  }

  predicate SameVersion(g: Generation, version: nat) { g.version == Some(version) }

  function From(g: Generation, version: nat): nat {
    if SameVersion(g, version) && g.cursor.Some? then g.cursor.value else 0
  }

  function Before(g: Generation, version: nat): nat {
    if SameVersion(g, version) && g.processed.Some? then g.processed.value else 0
  }

  /** The row positions `from`, `from + 1`, .., `count` of them. */
  function Positions(from: nat, count: nat): seq<nat> { seq(count, i requires 0 <= i => from + i) }

  /** The positions outside one page. */
  function Outside(foreign: set<nat>, from: nat, count: nat): set<nat> {
    set i | i in foreign && !(from <= i < from + count)
  }

  /** One page of the rebuild of a version that is not recorded as ready. */
  function Continue(s: State, rows: seq<Entry>, version: nat, lastPageKnown: bool): (State, Answer) {
    var g := s.generation;
    var from := From(g, version);
    var page, done := PageOf(rows, from), IsDone(rows, from, lastPageKnown);
    var processed := Before(g, version) + |page|;
    (State(
      ReprojectAll(version, s.tables, page), Recorded(g, version, processed, from + |page|, done),
      if done then s.batches else s.batches + 1, if StatsDue(g, done) then s.finalizes + 1 else s.finalizes,
      (if SameVersion(g, version) then s.covered else []) + Positions(from, |page|),
      Outside(if SameVersion(g, version) then s.foreign else {}, from, |page|)),
     Answer(if done then ReadyAnswer else BuildingAnswer, processed))
  }

  function Batch(s: State, rows: seq<Entry>, version: nat, active: bool, lastPageKnown: bool): (State, Answer) {
    var g := s.generation;
    if !active then (s, Answer(StaleAnswer, 0))
    else if SameVersion(g, version) && g.status == Ready then
      (s, Answer(ReadyAnswer, if g.processed.Some? then g.processed.value else g.ingested))
    else Continue(s, rows, version, lastPageKnown)
  }

  /** Category statistics are due once, when a rebuild completes and they are not ready. */
  predicate StatsDue(g: Generation, done: bool) { done && g.stats != StatsReady }

  /** The stored cursor belongs to the version that wrote it, and is cleared when the rebuild is done. */
  function Recorded(g: Generation, version: nat, processed: nat, cursor: nat, done: bool): Generation {
    Generation(Some(version), if done then Ready else Building, Some(processed), if done then None else Some(cursor),
               if StatsDue(g, done) then StatsPending else g.stats, g.ingested)
  }

  // ---- the tables ----

  class Backfill {
    var projections: map<string, seq<Projection>>
    var mirror: set<(string, string)>
    var written: set<(nat, string)>
    var generation: Generation
    var batches: nat
    var finalizes: nat
    ghost var covered: seq<nat>
    ghost var foreign: set<nat>

    constructor (s: State)
      ensures Current() == s
    {
      projections, mirror, written := s.tables.projections, s.tables.mirror, s.tables.written;
      generation, batches, finalizes := s.generation, s.batches, s.finalizes;
      covered, foreign := s.covered, s.foreign;
    }

    ghost function Current(): State
      reads this
    {
      State(Tables(projections, mirror, written), generation, batches, finalizes, covered, foreign)
    }

    /** Patches every projection that was read, one at a time. */
    method PatchProjections(version: nat, row: Entry, taken: seq<Projection>, n: nat) returns (patched: seq<Projection>)
      requires n <= |taken|
      ensures patched == ReprojectFirst(version, row, taken, n)
    {
      patched := taken;
      for i := 0 to n
        invariant |patched| == |taken|
        invariant forall k :: 0 <= k < i ==> patched[k] == Reprojected(version, row, taken[k])
        invariant forall k :: i <= k < |taken| ==> patched[k] == taken[k]
      {
        var analytics := Analytics(version, row.resource, row.content, taken[i].network);
        patched := patched[i := Projection(taken[i].network, analytics, version in row.eligibleIn)];
      }
    }

    /** Patches the projections, then the mirror, then the memberships of one row. */
    method Reproject(version: nat, row: Entry)
      modifies this`projections, this`mirror, this`written
      ensures Tables(projections, mirror, written)
              == ReprojectRow(version, old(Tables(projections, mirror, written)), row)
    {
      var taken := if row.resource in projections then projections[row.resource] else [];
      var n := if |taken| <= 130 then |taken| else 130;
      var previousEligible := WildcardEligible(taken[..n]);
      var patched := PatchProjections(version, row, taken, n);
      if row.resource in projections { projections := projections[row.resource := patched]; }
      if n > 0 { mirror := Toggle(mirror, row, version in row.eligibleIn, previousEligible); }
      written := written + {(version, row.resource)};
    }

    /** An identity rewrite of a retained row; too many networks throw before any write. */
    method RewriteRow(version: nat, before: Entry, row: Entry, networks: seq<string>) returns (accepted: bool)
      requires row.resource == before.resource
      modifies this`projections, this`mirror, this`written
      ensures accepted <==> |networks| <= NETWORK_LIMIT
      ensures Tables(projections, mirror, written)
              == if accepted then Rewritten(version, old(Tables(projections, mirror, written)), before, row, networks)
                 else old(Tables(projections, mirror, written))
    {
      if |networks| > 128 { return false; }
      var stored := if row.resource in projections then projections[row.resource] else [];
      var previousEligible := stored != [] && stored[0].eligible;
      var inserted := [Projected(version, row, "*")];
      for i := 0 to |networks|
        invariant inserted == Inserted(version, row, networks[..i])
      {
        inserted := inserted + [Projected(version, row, networks[i])];
      }
      assert networks[..|networks|] == networks;
      projections := projections[row.resource := inserted];
      if previousEligible { mirror := mirror - MirrorKeys(before); }
      if version in row.eligibleIn { mirror := mirror + MirrorKeys(row); }
      written := written + {(version, row.resource)};
      accepted := true;
    }

    method ReprojectPage(version: nat, page: seq<Entry>)
      modifies this`projections, this`mirror, this`written
      ensures Tables(projections, mirror, written)
              == ReprojectAll(version, old(Tables(projections, mirror, written)), page)
    {
      for i := 0 to |page|
        invariant Tables(projections, mirror, written)
                  == ReprojectAll(version, old(Tables(projections, mirror, written)), page[..i])
      {
        Reproject(version, page[i]);
        assert page[..i + 1][..i] == page[..i];
      }
      assert page[..|page|] == page;
    }

    /** One delivery. `rows` are the retained rows in index order; `lastPageKnown` is the paginator's choice. */
    method RunBatch(rows: seq<Entry>, version: nat, active: bool, lastPageKnown: bool) returns (answer: Answer)
      modifies this
      ensures (Current(), answer) == Batch(old(Current()), rows, version, active, lastPageKnown)
    {
      if !active { return Answer(StaleAnswer, 0); }
      if generation.version == Some(version) && generation.status == Ready {
        return Answer(ReadyAnswer, if generation.processed.Some? then generation.processed.value else generation.ingested);
      }
      answer := ContinueRebuild(rows, version, lastPageKnown);
    }

    method ContinueRebuild(rows: seq<Entry>, version: nat, lastPageKnown: bool) returns (answer: Answer)
      modifies this
      ensures (Current(), answer) == Continue(old(Current()), rows, version, lastPageKnown)
    {
      ghost var next := Continue(Current(), rows, version, lastPageKnown);
      var versionChanged := generation.version != Some(version);
      var from := if versionChanged || generation.cursor.None? then 0 else generation.cursor.value;
      var page := PageOf(rows, from);
      var before := if versionChanged || generation.processed.None? then 0 else generation.processed.value;
      assert from == From(generation, version) && before == Before(generation, version);
      assert page == PageOf(rows, From(generation, version));
      ReprojectPage(version, page);
      assert Tables(projections, mirror, written) == next.0.tables;
      var isDone := IsDone(rows, from, lastPageKnown);
      var processed := before + |page|;
      covered := (if versionChanged then [] else covered) + Positions(from, |page|);
      foreign := Outside(if versionChanged then {} else foreign, from, |page|);
      AdvanceCursor(version, processed, from + |page|, isDone);
      answer := Answer(if isDone then ReadyAnswer else BuildingAnswer, processed);
      assert generation == next.0.generation;
      assert batches == next.0.batches && finalizes == next.0.finalizes;
      assert covered == next.0.covered && foreign == next.0.foreign && answer == next.1;
    }

    /** Patches the generation row and schedules what comes next. */
    method AdvanceCursor(version: nat, processed: nat, cursor: nat, isDone: bool)
      modifies this`generation, this`batches, this`finalizes
      ensures generation == Recorded(old(generation), version, processed, cursor, isDone)
      ensures batches == (if isDone then old(batches) else old(batches) + 1)
      ensures finalizes == (if StatsDue(old(generation), isDone) then old(finalizes) + 1 else old(finalizes))
    {
      var statsReady := generation.stats == StatsReady;
      generation := Generation(Some(version), if isDone then Ready else Building, Some(processed),
                               if isDone then None else Some(cursor),
                               if isDone && !statsReady then StatsPending else generation.stats, generation.ingested);
      if !isDone { batches := batches + 1; }
      else if !statsReady { finalizes := finalizes + 1; }
    }
  }

  // ---- runs ----

  /** A delivery that runs under the code version deployed at the time, duplicate or not. */
  datatype Delivery = Delivery(version: nat, active: bool, lastPageKnown: bool)

  /**
   A delivery, or the ingestion of an already retained row under the version deployed at the
   time: an identity rewrite with its networks, or a change of activity alone.
   */
  datatype Event =
    | Deliver(d: Delivery)
    | Rewrite(version: nat, at: nat, content: nat, facets: set<string>, eligibleIn: set<nat>, networks: seq<string>)
    | Touch(version: nat, at: nat, content: nat, eligibleIn: set<nat>)

  /** The rows and what is derived from them. */
  datatype World = World(s: State, rows: seq<Entry>)

  function MarkForeign(s: State, version: nat, at: nat): set<nat> {
    if SameVersion(s.generation, version) then s.foreign - {at} else s.foreign + {at}
  }

  /** Rows and search rows are written together, so a row without search rows is never ingested again. */
  predicate Ingestible(w: World, at: nat) {
    at < |w.rows| && Projections(w.s.tables, w.rows[at].resource) != []
  }

  function Changed(row: Entry, e: Event): Entry
    requires !e.Deliver?
  {
    match e
    case Rewrite(_, _, content, facets, eligibleIn, _) => row.(content := content, facets := facets, eligibleIn := eligibleIn)
    case Touch(_, _, content, eligibleIn) => row.(content := content, eligibleIn := eligibleIn)
  }

  function Ingest(w: World, e: Event): World
    requires !e.Deliver?
  {
    if !Ingestible(w, e.at) || (e.Rewrite? && |e.networks| > NETWORK_LIMIT) then w
    else
      var row := Changed(w.rows[e.at], e);
      var tables := match e
        case Rewrite(version, _, _, _, _, networks) => Rewritten(version, w.s.tables, w.rows[e.at], row, networks)
        case Touch(version, _, _, _) => ReprojectRow(version, w.s.tables, row);
      World(w.s.(tables := tables, foreign := MarkForeign(w.s, e.version, e.at)), w.rows[e.at := row])
  }

  function Step(w: World, e: Event): World {
    match e
    case Deliver(d) => w.(s := Batch(w.s, w.rows, d.version, d.active, d.lastPageKnown).0)
    case _ => Ingest(w, e)
  }

  function Run(w: World, es: seq<Event>): World {
    if es == [] then w else Step(Run(w, es[..|es| - 1]), es[|es| - 1])
  }

  /** Rows, with distinct resources, that every state of the run refers to. */
  predicate DistinctResources(rows: seq<Entry>) {
    forall i, j :: 0 <= i < j < |rows| ==> rows[i].resource != rows[j].resource
  }

  /** The projection of a row was computed under another version. */
  predicate Outdated(version: nat, t: Tables, row: Entry) {
    var ps := Projections(t, row.resource);
    ps != [] && ps[0].analytics.version != version
  }

  /**
   A stored rebuild of some version covers exactly the rows before its cursor, in order and
   once each. Its derived rows are fresh for that version but where ingestion under another
   version came later.
   */
  ghost predicate Holds(s: State, rows: seq<Entry>) {
    && (s.generation.status == Missing <==> s.generation.version.None?)
    && (s.generation.cursor.Some? <==> s.generation.status == Building)
    && (s.generation.version.None? ==> s.generation.processed.None?)
    && (s.generation.version.Some? ==>
          && s.generation.processed.Some?
          && var n := s.generation.processed.value;
          && n <= |rows|
          && (s.generation.status == Building ==> s.generation.cursor == Some(n))
          && (s.generation.status == Ready ==> n == |rows|)
          && s.covered == UpTo(n)
          && FreshBefore(s.generation.version.value, s.tables, rows, n, s.foreign)
          && ForeignOutdated(s.generation.version.value, s.tables, rows, s.foreign))
    && Consistent(s.tables, rows)
  }

  /** Every projection of the row was recomputed, its memberships written and its mirror exact. */
  ghost predicate Fresh(version: nat, t: Tables, row: Entry) {
    var ps := Projections(t, row.resource);
    && (forall i :: 0 <= i < |ps| ==>
          && ps[i].analytics == Analytics(version, row.resource, row.content, ps[i].network)
          && (ps[i].eligible <==> version in row.eligibleIn))
    && (version, row.resource) in t.written
    && (ps != [] ==> forall f :: (f, row.resource) in t.mirror <==> f in row.facets && version in row.eligibleIn)
  }

  ghost predicate FreshBefore(version: nat, t: Tables, rows: seq<Entry>, n: nat, foreign: set<nat>)
    requires n <= |rows|
  {
    forall i :: 0 <= i < n && i !in foreign ==> Fresh(version, t, rows[i])
  }

  ghost predicate ForeignOutdated(version: nat, t: Tables, rows: seq<Entry>, foreign: set<nat>) {
    forall i :: i in foreign ==> i < |rows| && Outdated(version, t, rows[i])
  }

  /** The projections are as indexed, and the mirror agrees with the wildcard among them. */
  ghost predicate RowConsistent(t: Tables, row: Entry) {
    var ps := Projections(t, row.resource);
    && Indexed(ps)
    && (ps != [] ==> forall f :: (f, row.resource) in t.mirror <==> f in row.facets && ps[0].eligible)
  }

  ghost predicate Consistent(t: Tables, rows: seq<Entry>) {
    forall i :: 0 <= i < |rows| ==> RowConsistent(t, rows[i])
  }

  // ---- one row changes ----

  lemma ReprojectRowIsFresh(version: nat, t: Tables, row: Entry)
    requires RowConsistent(t, row)
    ensures var after := ReprojectRow(version, t, row); Fresh(version, after, row) && RowConsistent(after, row)
  {
    var after := ReprojectRow(version, t, row);
    var before, ps := Projections(t, row.resource), Projections(after, row.resource);
    assert Taken(t, row.resource) == |before| == |ps| && before[..|before|] == before;
    if ps != [] { MirrorIsExact(t, row, version in row.eligibleIn, before[0].eligible); }
  }

  /** Toggling moves exactly the facets of the row, and only when its eligibility changed. */
  lemma MirrorIsExact(t: Tables, row: Entry, eligible: bool, before: bool)
    requires forall f :: (f, row.resource) in t.mirror <==> f in row.facets && before
    ensures forall f :: (f, row.resource) in Toggle(t.mirror, row, eligible, before) <==> f in row.facets && eligible
  {
    forall f
      ensures (f, row.resource) in Toggle(t.mirror, row, eligible, before) <==> f in row.facets && eligible
    {
      assert (f, row.resource) in MirrorKeys(row) <==> f in row.facets;
    }
  }

  /** A rewrite leaves the row fresh for its version, whatever its facets were before. */
  lemma RewriteIsFresh(version: nat, t: Tables, before: Entry, row: Entry, networks: seq<string>)
    requires row.resource == before.resource && RowConsistent(t, before) && |networks| <= NETWORK_LIMIT
    requires Projections(t, row.resource) != []
    ensures var after := Rewritten(version, t, before, row, networks); Fresh(version, after, row) && RowConsistent(after, row)
  {
    var after := Rewritten(version, t, before, row, networks);
    forall f
      ensures (f, row.resource) in after.mirror <==> f in row.facets && version in row.eligibleIn
    {
      assert (f, row.resource) in MirrorKeys(row) <==> f in row.facets;
      assert (f, row.resource) in MirrorKeys(before) <==> f in before.facets;
    }
  }

  /** Derived rows of one resource are as they were. */
  ghost predicate SameAt(t: Tables, after: Tables, resource: string) {
    && Projections(after, resource) == Projections(t, resource)
    && (forall f :: (f, resource) in after.mirror <==> (f, resource) in t.mirror)
    && t.written <= after.written
  }

  lemma ReprojectRowElsewhere(version: nat, t: Tables, row: Entry, other: string)
    requires other != row.resource
    ensures SameAt(t, ReprojectRow(version, t, row), other)
  {
  }

  lemma RewriteElsewhere(version: nat, t: Tables, before: Entry, row: Entry, networks: seq<string>, other: string)
    requires other != row.resource && before.resource == row.resource
    ensures SameAt(t, Rewritten(version, t, before, row, networks), other)
  {
  }

  lemma SameAtKeeps(version: nat, t: Tables, after: Tables, row: Entry)
    requires SameAt(t, after, row.resource)
    ensures RowConsistent(t, row) ==> RowConsistent(after, row)
    ensures Fresh(version, t, row) ==> Fresh(version, after, row)
    ensures Outdated(version, t, row) ==> Outdated(version, after, row)
  {
  }

  // ---- one delivery ----

  /** Reprojecting the next row keeps the rows before it fresh, and every row consistent. */
  lemma NextRowIsFresh(version: nat, t: Tables, rows: seq<Entry>, k: nat, foreign: set<nat>, after: Tables)
    requires k < |rows| && DistinctResources(rows) && after == ReprojectRow(version, t, rows[k])
    requires Progress(version, t, rows, k, foreign)
    ensures Progress(version, after, rows, k + 1, foreign - {k})
  {
    assert RowConsistent(t, rows[k]);
    ReprojectRowIsFresh(version, t, rows[k]);
    forall i | 0 <= i < |rows| && i != k
      ensures RowConsistent(after, rows[i]) && (i < k && i !in foreign ==> Fresh(version, after, rows[i]))
      ensures Outdated(version, t, rows[i]) ==> Outdated(version, after, rows[i])
    {
      assert RowConsistent(t, rows[i]);
      ReprojectRowElsewhere(version, t, rows[k], rows[i].resource);
      SameAtKeeps(version, t, after, rows[i]);
    }
  }

  lemma PageExtends(version: nat, t: Tables, rows: seq<Entry>, from: nat, end: nat)
    requires from < end <= |rows|
    ensures ReprojectAll(version, t, rows[from..end])
            == ReprojectRow(version, ReprojectAll(version, t, rows[from..end - 1]), rows[end - 1])
  {
    var page := rows[from..end];
    assert page != [] && page[..|page| - 1] == rows[from..end - 1] && page[|page| - 1] == rows[end - 1];
  }

  /** The rows from one position to another, reprojected one after another. */
  function Through(version: nat, t: Tables, rows: seq<Entry>, from: nat, end: nat): Tables
    requires from <= end <= |rows|
  {
    if from == end then t else ReprojectRow(version, Through(version, t, rows, from, end - 1), rows[end - 1])
  }

  lemma {:induction false} PageIsThrough(version: nat, t: Tables, rows: seq<Entry>, from: nat, end: nat)
    requires from <= end <= |rows|
    ensures ReprojectAll(version, t, rows[from..end]) == Through(version, t, rows, from, end)
    decreases end
  {
    if from < end {
      PageIsThrough(version, t, rows, from, end - 1);
      PageExtends(version, t, rows, from, end);
    } else {
      assert rows[from..end] == [];
    }
  }

  /** How far a rebuild has come. */
  ghost predicate Progress(version: nat, t: Tables, rows: seq<Entry>, n: nat, foreign: set<nat>) {
    && n <= |rows| && Consistent(t, rows) && FreshBefore(version, t, rows, n, foreign)
    && ForeignOutdated(version, t, rows, foreign)
  }

  lemma OutsideExtends(foreign: set<nat>, from: nat, end: nat)
    requires from < end
    ensures Outside(foreign, from, end - 1 - from) - {end - 1} == Outside(foreign, from, end - from)
  {
  }

  lemma {:induction false} ThroughProgress(version: nat, t: Tables, rows: seq<Entry>, from: nat, end: nat, foreign: set<nat>)
    requires from <= end <= |rows| && DistinctResources(rows) && Progress(version, t, rows, from, foreign)
    ensures Progress(version, Through(version, t, rows, from, end), rows, end, Outside(foreign, from, end - from))
    decreases end
  {
    if from < end {
      var before := Through(version, t, rows, from, end - 1);
      ThroughProgress(version, t, rows, from, end - 1, foreign);
      NextRowIsFresh(version, before, rows, end - 1, Outside(foreign, from, end - 1 - from),
                     ReprojectRow(version, before, rows[end - 1]));
      OutsideExtends(foreign, from, end);
    } else {
      assert Outside(foreign, from, 0) == foreign;
    }
  }

  /** A page of distinct rows: its own rows become fresh, and rows outside it stay as they were. */
  lemma PageIsFresh(version: nat, t: Tables, rows: seq<Entry>, from: nat, end: nat, foreign: set<nat>)
    requires from <= end <= |rows| && DistinctResources(rows) && Progress(version, t, rows, from, foreign)
    ensures Progress(version, ReprojectAll(version, t, rows[from..end]), rows, end, Outside(foreign, from, end - from))
  {
    ThroughProgress(version, t, rows, from, end, foreign);
    PageIsThrough(version, t, rows, from, end);
  }

  lemma PositionsExtend(n: nat, count: nat)
    ensures UpTo(n) + Positions(n, count) == UpTo(n + count)
    ensures [] + Positions(0, count) == UpTo(count)
  {
  }

  /** The foreign rows of the rebuild that a delivery continues or begins. */
  function Kept(s: State, version: nat): set<nat> { if SameVersion(s.generation, version) then s.foreign else {} }

  /** Where a rebuild of this version resumes: everything before is fresh, counted and covered. */
  lemma ResumePoint(s: State, rows: seq<Entry>, version: nat)
    requires Holds(s, rows) && !(SameVersion(s.generation, version) && s.generation.status == Ready)
    ensures var from := From(s.generation, version);
            && from <= |rows| && Before(s.generation, version) == from
            && FreshBefore(version, s.tables, rows, from, Kept(s, version))
            && ForeignOutdated(version, s.tables, rows, Kept(s, version))
            && (if SameVersion(s.generation, version) then s.covered else []) == UpTo(from)
  {
    assert UpTo(0) == [];
  }

  lemma ContinueHolds(s: State, rows: seq<Entry>, version: nat, lastPageKnown: bool)
    requires Holds(s, rows) && DistinctResources(rows)
    requires !(SameVersion(s.generation, version) && s.generation.status == Ready)
    ensures Holds(Continue(s, rows, version, lastPageKnown).0, rows)
  {
    ResumePoint(s, rows, version);
    var from, after := From(s.generation, version), Continue(s, rows, version, lastPageKnown).0;
    var upto, done := PageEnd(rows, from), IsDone(rows, from, lastPageKnown);
    assert PageOf(rows, from) == rows[from..upto] && |rows[from..upto]| == upto - from && (done ==> upto == |rows|);
    assert after.generation == Recorded(s.generation, version, upto, upto, done);
    PageIsFresh(version, s.tables, rows, from, upto, Kept(s, version));
    assert after.covered == UpTo(upto) by { PositionsExtend(from, upto - from); }
    RebuiltHolds(after, rows, version, upto, s.generation, done);
  }

  lemma BatchHolds(s: State, rows: seq<Entry>, d: Delivery)
    requires Holds(s, rows) && DistinctResources(rows)
    ensures Holds(Batch(s, rows, d.version, d.active, d.lastPageKnown).0, rows)
  {
    if d.active && !(SameVersion(s.generation, d.version) && s.generation.status == Ready) {
      ContinueHolds(s, rows, d.version, d.lastPageKnown);
    }
  }

  /** A state that records a rebuild of `version` up to row `n`. */
  lemma RebuiltHolds(s: State, rows: seq<Entry>, version: nat, n: nat, g: Generation, done: bool)
    requires n <= |rows| && (done ==> n == |rows|) && s.generation == Recorded(g, version, n, n, done)
    requires s.covered == UpTo(n) && Consistent(s.tables, rows)
    requires FreshBefore(version, s.tables, rows, n, s.foreign) && ForeignOutdated(version, s.tables, rows, s.foreign)
    ensures Holds(s, rows)
  {
  }

  // ---- one ingestion ----

  /** The ingested row is fresh for the version it was ingested under, and no other row moves. */
  lemma IngestIsFresh(w: World, e: Event)
    requires !e.Deliver? && Ingestible(w, e.at) && DistinctResources(w.rows) && Consistent(w.s.tables, w.rows)
    requires e.Rewrite? ==> |e.networks| <= NETWORK_LIMIT
    ensures var after := Ingest(w, e);
            && |after.rows| == |w.rows| && DistinctResources(after.rows)
            && Fresh(e.version, after.s.tables, after.rows[e.at]) && RowConsistent(after.s.tables, after.rows[e.at])
            && Projections(after.s.tables, after.rows[e.at].resource) != []
            && forall i :: 0 <= i < |w.rows| && i != e.at ==>
                 after.rows[i] == w.rows[i] && SameAt(w.s.tables, after.s.tables, w.rows[i].resource)
  {
    var row, after := Changed(w.rows[e.at], e), Ingest(w, e);
    assert RowConsistent(w.s.tables, w.rows[e.at]) && row.resource == w.rows[e.at].resource;
    match e
    case Rewrite(version, at, _, _, _, networks) =>
      RewriteIsFresh(version, w.s.tables, w.rows[at], row, networks);
      forall i | 0 <= i < |w.rows| && i != at
        ensures SameAt(w.s.tables, after.s.tables, w.rows[i].resource)
      {
        RewriteElsewhere(version, w.s.tables, w.rows[at], row, networks, w.rows[i].resource);
      }
    case Touch(version, at, _, _) =>
      assert RowConsistent(w.s.tables, row);
      ReprojectRowIsFresh(version, w.s.tables, row);
      forall i | 0 <= i < |w.rows| && i != at
        ensures SameAt(w.s.tables, after.s.tables, w.rows[i].resource)
      {
        ReprojectRowElsewhere(version, w.s.tables, row, w.rows[i].resource);
      }
  }

  lemma FreshIsCurrent(version: nat, other: nat, t: Tables, row: Entry)
    requires Fresh(version, t, row) && Projections(t, row.resource) != []
    ensures Outdated(other, t, row) <==> other != version
  {
    assert Projections(t, row.resource)[0] == Reprojected(version, row, Projections(t, row.resource)[0]);
  }

  lemma IngestHolds(w: World, e: Event)
    requires !e.Deliver? && Holds(w.s, w.rows) && DistinctResources(w.rows)
    ensures Holds(Ingest(w, e).s, Ingest(w, e).rows) && DistinctResources(Ingest(w, e).rows)
  {
    var after := Ingest(w, e);
    if Ingestible(w, e.at) && (e.Rewrite? ==> |e.networks| <= NETWORK_LIMIT) {
      IngestIsFresh(w, e);
      var version := if w.s.generation.version.Some? then w.s.generation.version.value else 0;
      forall i | 0 <= i < |w.rows| && i != e.at
        ensures RowConsistent(after.s.tables, after.rows[i])
        ensures Fresh(version, w.s.tables, w.rows[i]) ==> Fresh(version, after.s.tables, after.rows[i])
        ensures Outdated(version, w.s.tables, w.rows[i]) ==> Outdated(version, after.s.tables, after.rows[i])
      {
        assert RowConsistent(w.s.tables, w.rows[i]);
        SameAtKeeps(version, w.s.tables, after.s.tables, w.rows[i]);
      }
      FreshIsCurrent(e.version, version, after.s.tables, after.rows[e.at]);
    }
  }

  lemma {:induction false} RunHolds(w: World, es: seq<Event>)
    requires Holds(w.s, w.rows) && DistinctResources(w.rows)
    ensures Holds(Run(w, es).s, Run(w, es).rows) && DistinctResources(Run(w, es).rows)
    ensures |Run(w, es).rows| == |w.rows|
  {
    if es != [] {
      var before, e := Run(w, es[..|es| - 1]), es[|es| - 1];
      RunHolds(w, es[..|es| - 1]);
      match e
      case Deliver(d) => BatchHolds(before.s, before.rows, d);
      case _ => IngestHolds(before, e);
    }
  }

  /** Nothing was rebuilt yet; projections are as ingestion leaves them, and the mirror agrees with them. */
  ghost predicate Initial(w: World) {
    && w.s.generation.version.None? && w.s.generation.status == Missing
    && w.s.generation.processed.None? && w.s.generation.cursor.None?
    && Consistent(w.s.tables, w.rows) && DistinctResources(w.rows)
  }

  // ---- one delivery and one rewrite, column by column ----

  /** A stale or repeated delivery changes nothing; the repeated one reports the recorded count. */
  lemma DeliveryChangesNothing(s: State, rows: seq<Entry>, d: Delivery)
    ensures var (after, answer) := Batch(s, rows, d.version, d.active, d.lastPageKnown);
            var ready := s.generation.version == Some(d.version) && s.generation.status.Ready?;
            && (answer.kind.StaleAnswer? <==> !d.active) && (!d.active ==> after == s && answer.processed == 0)
            && (d.active && ready ==>
                  && after == s && answer.kind.ReadyAnswer?
                  && answer.processed == (if s.generation.processed.Some? then s.generation.processed.value else s.generation.ingested))
  {
  }

  /** The rows one active delivery reads: from the cursor of its own version, or from the first, five or as many as are left. */
  predicate Reads(g: Generation, rows: seq<Entry>, version: nat, from: nat, end: nat) {
    && from == (if g.version == Some(version) && g.cursor.Some? then g.cursor.value else 0)
    && from <= end <= |rows| && end - from <= 5 && (end - from < 5 ==> end == |rows|)
  }

  /** What an active delivery records, schedules and answers, the last page included. */
  lemma DeliveryRecords(s: State, rows: seq<Entry>, d: Delivery, from: nat, end: nat)
    requires d.active && !(s.generation.version == Some(d.version) && s.generation.status.Ready?)
    requires Reads(s.generation, rows, d.version, from, end)
    ensures var (after, answer) := Batch(s, rows, d.version, true, d.lastPageKnown);
            var g, h := s.generation, after.generation;
            var counted := (if g.version == Some(d.version) && g.processed.Some? then g.processed.value else 0) + end - from;
            var last := end == |rows| && (end - from < 5 || d.lastPageKnown);
            && h.version == Some(d.version) && h.processed == Some(counted) && h.ingested == g.ingested
            && answer.processed == counted
            && if last then
                 && answer.kind.ReadyAnswer? && h.status.Ready? && h.cursor.None? && after.batches == s.batches
                 && h.stats == (if g.stats.StatsReady? then StatsReady else StatsPending)
                 && after.finalizes == s.finalizes + (if g.stats.StatsReady? then 0 else 1)
               else
                 && answer.kind.BuildingAnswer? && h.status.Building? && h.cursor == Some(end) && h.stats == g.stats
                 && after.batches == s.batches + 1 && after.finalizes == s.finalizes
  {
  }

  /** A rewrite leaves exactly the wildcard and the given networks, in order. */
  lemma RewriteNetworks(version: nat, t: Tables, before: Entry, row: Entry, networks: seq<string>)
    ensures var ps := Projections(Rewritten(version, t, before, row, networks), row.resource);
            |ps| == 1 + |networks| && ps[0].network == "*" && forall i :: 0 <= i < |networks| ==> ps[i + 1].network == networks[i]
  {
    var ps := Projections(Rewritten(version, t, before, row, networks), row.resource);
    forall i | 0 <= i < |networks|
      ensures ps[i + 1].network == networks[i]
    {
      assert (["*"] + networks)[i + 1] == networks[i];
    }
  }

  /**
   Reprojecting keeps the networks of a row's projections, in order, touches nothing of another
   row, and leaves a row that is not indexed out of the mirror.
   */
  lemma ReprojectKeepsNetworks(version: nat, t: Tables, row: Entry, other: string)
    ensures var after := ReprojectRow(version, t, row);
            var ps, qs := Projections(t, row.resource), Projections(after, row.resource);
            && |qs| == |ps| && (forall i :: 0 <= i < |ps| ==> qs[i].network == ps[i].network)
            && (ps == [] ==> after.mirror == t.mirror)
            && (other != row.resource ==>
                  && Projections(after, other) == Projections(t, other)
                  && (forall f :: (f, other) in after.mirror <==> (f, other) in t.mirror)
                  && (forall v :: (v, other) in after.written <==> (v, other) in t.written))
  {
  }

  /** What an ingestion makes of the retained row. */
  lemma IngestWrites(w: World, e: Event)
    requires !e.Deliver? && e.at < |w.rows|
    ensures var after := Ingest(w, e);
            var accepted := Projections(w.s.tables, w.rows[e.at].resource) != [] && (e.Rewrite? ==> |e.networks| <= 128);
            && (!accepted ==> after == w)
            && (accepted ==>
                  && |after.rows| == |w.rows| && after.rows == w.rows[e.at := after.rows[e.at]]
                  && after.rows[e.at].resource == w.rows[e.at].resource && after.rows[e.at].content == e.content
                  && after.rows[e.at].eligibleIn == e.eligibleIn
                  && after.rows[e.at].facets == (if e.Rewrite? then e.facets else w.rows[e.at].facets)
                  && after.s.generation == w.s.generation && after.s.batches == w.s.batches && after.s.finalizes == w.s.finalizes)
  {
  }

  // ---- theorems ----

  /**
   Over any deliveries, duplicated, interleaved with version changes, stale or mixed with
   ingestion: when the rebuild of a version is recorded as ready, every row was reprojected
   exactly once since that rebuild began, the count is the row count, and the derived rows
   of a row, every projection among them, are fresh for that version exactly unless it was
   ingested under another version since.
   */
  lemma {:induction false} ReadyMeansRebuilt(w: World, es: seq<Event>)
    requires Initial(w)
    ensures var end := Run(w, es);
            end.s.generation.status == Ready ==>
              && end.s.generation.version.Some? && end.s.generation.processed == Some(|w.rows|)
              && |end.rows| == |w.rows| && end.s.covered == UpTo(|w.rows|)
              && forall i :: 0 <= i < |end.rows| ==>
                   (Fresh(end.s.generation.version.value, end.s.tables, end.rows[i]) <==> i !in end.s.foreign)
  {
    RunHolds(w, es);
    var end := Run(w, es);
    if end.s.generation.status == Ready {
      var version := end.s.generation.version.value;
      forall i | i in end.s.foreign
        ensures i < |end.rows| && !Fresh(version, end.s.tables, end.rows[i])
      {
        assert Outdated(version, end.s.tables, end.rows[i]);
        if Fresh(version, end.s.tables, end.rows[i]) { FreshIsCurrent(version, version, end.s.tables, end.rows[i]); }
      }
    }
  }

  /** Every ingestion ran under this version. */
  predicate IngestedUnder(es: seq<Event>, version: nat) {
    forall k :: 0 <= k < |es| ==> es[k].Deliver? || es[k].version == version
  }

  /** While everything ingested ran under the recorded version, nothing is foreign to its rebuild. */
  lemma {:induction false} OneVersionNothingForeign(w: World, es: seq<Event>, version: nat)
    requires IngestedUnder(es, version) && w.s.foreign == {}
    ensures var end := Run(w, es).s; SameVersion(end.generation, version) ==> end.foreign == {}
  {
    if es != [] {
      assert forall k :: 0 <= k < |es| - 1 ==> es[..|es| - 1][k] == es[k];
      OneVersionNothingForeign(w, es[..|es| - 1], version);
    }
  }

  /** With one version deployed throughout, ready means every row is fresh, whatever was ingested meanwhile. */
  lemma {:induction false} ReadyMeansFresh(w: World, es: seq<Event>, version: nat)
    requires Initial(w) && w.s.foreign == {} && IngestedUnder(es, version)
    requires Run(w, es).s.generation.status == Ready && SameVersion(Run(w, es).s.generation, version)
    ensures var end := Run(w, es); forall i :: 0 <= i < |end.rows| ==> Fresh(version, end.s.tables, end.rows[i])
  {
    ReadyMeansRebuilt(w, es);
    OneVersionNothingForeign(w, es, version);
  }

  /** An answer of "ready" always reports the row count. */
  lemma ReadyReportsRowCount(s: State, rows: seq<Entry>, d: Delivery)
    requires Holds(s, rows) && DistinctResources(rows)
    ensures var answer := Batch(s, rows, d.version, d.active, d.lastPageKnown).1;
            answer.kind == ReadyAnswer ==> answer.processed == |rows|
  {
    BatchHolds(s, rows, d);
  }

  /** Reprojecting keeps the number and the networks of every resource's projections. */
  ghost predicate SameShape(t: Tables, u: Tables) {
    forall r ::
      && |Projections(t, r)| == |Projections(u, r)|
      && forall i :: 0 <= i < |Projections(t, r)| ==> Projections(t, r)[i].network == Projections(u, r)[i].network
  }

  lemma ReprojectRowShape(version: nat, t: Tables, row: Entry)
    ensures SameShape(t, ReprojectRow(version, t, row))
  {
  }

  lemma {:induction false} ReprojectAllShape(version: nat, t: Tables, rows: seq<Entry>)
    ensures SameShape(t, ReprojectAll(version, t, rows))
  {
    if rows != [] {
      ReprojectAllShape(version, t, rows[..|rows| - 1]);
      ReprojectRowShape(version, ReprojectAll(version, t, rows[..|rows| - 1]), rows[|rows| - 1]);
    }
  }

  /** Freshness decides the projections of a row and its mirror. */
  lemma FreshDetermines(version: nat, t: Tables, u: Tables, row: Entry)
    requires SameShape(t, u) && Fresh(version, t, row) && Fresh(version, u, row)
    ensures Projections(t, row.resource) == Projections(u, row.resource)
    ensures Projections(t, row.resource) != [] ==> forall f :: (f, row.resource) in t.mirror <==> (f, row.resource) in u.mirror
  {
    var ps, qs := Projections(t, row.resource), Projections(u, row.resource);
    forall i | 0 <= i < |ps|
      ensures ps[i] == qs[i]
    {
      assert ps[i] == Reprojected(version, row, ps[i]) && qs[i] == Reprojected(version, row, qs[i]);
    }
  }

  /** The derived rows of one resource agree. */
  ghost predicate AgreeAt(t: Tables, u: Tables, resource: string) {
    && Projections(t, resource) == Projections(u, resource)
    && (Projections(t, resource) != [] ==> forall f :: (f, resource) in t.mirror <==> (f, resource) in u.mirror)
  }

  /**
   However it was reached, a ready rebuild agrees with one whole-table rebuild of the current
   rows, started from any consistent tables of its shape, on every row that was not ingested
   under another version since.
   */
  lemma {:induction false} ReadyEqualsWholeRebuild(w: World, es: seq<Event>, start: Tables, i: nat)
    requires Initial(w) && Run(w, es).s.generation.status == Ready
    requires Consistent(start, Run(w, es).rows) && SameShape(start, Run(w, es).s.tables)
    requires i < |w.rows| && i !in Run(w, es).s.foreign
    ensures var end := Run(w, es);
            && end.s.generation.version.Some? && i < |end.rows|
            && AgreeAt(end.s.tables, ReprojectAll(end.s.generation.version.value, start, end.rows), end.rows[i].resource)
  {
    var end := Run(w, es);
    ReadyMeansRebuilt(w, es);
    RunHolds(w, es);
    var version := end.s.generation.version.value;
    ReprojectAllShape(version, start, end.rows);
    assert end.rows[0..|end.rows|] == end.rows;
    PageIsFresh(version, start, end.rows, 0, |end.rows|, {});
    FreshDetermines(version, end.s.tables, ReprojectAll(version, start, end.rows), end.rows[i]);
  }

  /** Without an identity rewrite a run keeps the shape of the tables, the resources and the facets. */
  lemma {:induction false} RunShape(w: World, es: seq<Event>)
    requires forall k :: 0 <= k < |es| ==> !es[k].Rewrite?
    ensures SameShape(w.s.tables, Run(w, es).s.tables) && |Run(w, es).rows| == |w.rows|
    ensures forall i :: 0 <= i < |w.rows| ==>
              Run(w, es).rows[i].resource == w.rows[i].resource && Run(w, es).rows[i].facets == w.rows[i].facets
  {
    if es != [] {
      var before, e := Run(w, es[..|es| - 1]), es[|es| - 1];
      assert forall k :: 0 <= k < |es| - 1 ==> es[..|es| - 1][k] == es[k];
      RunShape(w, es[..|es| - 1]);
      if e.Deliver? {
        ReprojectAllShape(e.d.version, before.s.tables, PageOf(before.rows, From(before.s.generation, e.d.version)));
      } else if Ingestible(before, e.at) {
        ReprojectRowShape(e.version, before.s.tables, Changed(before.rows[e.at], e));
      }
    }
  }

  /** In particular it agrees with one whole-table rebuild of the tables the run started from. */
  lemma ReadyEqualsRebuiltStart(w: World, es: seq<Event>, i: nat)
    requires Initial(w) && Run(w, es).s.generation.status == Ready && forall k :: 0 <= k < |es| ==> !es[k].Rewrite?
    requires i < |w.rows| && i !in Run(w, es).s.foreign
    ensures var end := Run(w, es);
            && end.s.generation.version.Some? && i < |end.rows|
            && AgreeAt(end.s.tables, ReprojectAll(end.s.generation.version.value, w.s.tables, end.rows), end.rows[i].resource)
  {
    RunShape(w, es);
    forall k | 0 <= k < |w.rows|
      ensures RowConsistent(w.s.tables, Run(w, es).rows[k])
    {
      assert RowConsistent(w.s.tables, w.rows[k]);
    }
    ReadyEqualsWholeRebuild(w, es, w.s.tables, i);
  }

  // ---- progress ----

  predicate DeliversOnly(es: seq<Event>, version: nat) {
    forall k :: 0 <= k < |es| && es[k].Deliver? ==> es[k].d.version == version && es[k].d.active
  }

  function Deliveries(es: seq<Event>): nat {
    if es == [] then 0 else Deliveries(es[..|es| - 1]) + (if es[|es| - 1].Deliver? then 1 else 0)
  }

  /** After `k` deliveries of one version, either it is ready or at least `5 * k` rows are done. */
  lemma {:induction false} DeliveriesProgress(w: World, es: seq<Event>, version: nat)
    requires Holds(w.s, w.rows) && DistinctResources(w.rows) && DeliversOnly(es, version) && Deliveries(es) > 0
    ensures var g := Run(w, es).s.generation;
            && SameVersion(g, version)
            && (g.status == Ready
                || (g.status == Building && g.processed.Some? && g.processed.value >= PAGE_SIZE * Deliveries(es)))
  {
    var front, e := es[..|es| - 1], es[|es| - 1];
    assert forall k :: 0 <= k < |front| ==> front[k] == es[k];
    if Deliveries(front) > 0 { DeliveriesProgress(w, front, version); }
    if e.Deliver? { DeliveryProgress(w, front, e.d); }
  }

  /** One more active delivery completes a rebuild or does its next five rows. */
  lemma DeliveryProgress(w: World, front: seq<Event>, d: Delivery)
    requires Holds(w.s, w.rows) && DistinctResources(w.rows) && d.active
    ensures var before, after := Run(w, front), Batch(Run(w, front).s, Run(w, front).rows, d.version, d.active, d.lastPageKnown).0;
            && SameVersion(after.generation, d.version)
            && (after.generation.status == Ready
                || (after.generation.status == Building && after.generation.processed.Some?
                    && after.generation.processed.value == Before(before.s.generation, d.version) + PAGE_SIZE))
  {
    var before := Run(w, front);
    RunHolds(w, front);
    if !(SameVersion(before.s.generation, d.version) && before.s.generation.status == Ready) {
      ResumePoint(before.s, before.rows, d.version);
    }
  }

  /** One delivery more than a fifth of the row count, all under one version, always completes the rebuild. */
  lemma {:induction false} DeliveriesReachReady(w: World, es: seq<Event>, version: nat)
    requires Holds(w.s, w.rows) && DistinctResources(w.rows) && DeliversOnly(es, version)
    requires Deliveries(es) > |w.rows| / PAGE_SIZE
    ensures Run(w, es).s.generation.status == Ready && SameVersion(Run(w, es).s.generation, version)
  {
    DeliveriesProgress(w, es, version);
    RunHolds(w, es);
  }
}
