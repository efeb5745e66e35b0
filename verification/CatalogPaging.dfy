/**
 One page of the external tool catalog. Coinbase serves fixed 20-item pages from
 offsets it rounds down; PayAI serves any window. The cursor handed out is the
 decimal text of an offset into the upstream list.
 */
module CatalogPaging {
  import opened Wrappers

  const PAGE_LIMIT: nat := 20

  // ---- cursors ----

  function Digit(d: nat): char
    requires d < 10
  {
    '0' + d as char
  }

  /** `String(n)` for a safe integer. */
  function Decimal(n: nat): (s: string)
    ensures s != ""
  {
    if n < 10 then [Digit(n)] else Decimal(n / 10) + [Digit(n % 10)]
  }

  predicate IsDigits(s: string) { forall i :: 0 <= i < |s| ==> '0' <= s[i] <= '9' }

  function DigitsValue(s: string): nat
    requires IsDigits(s)
  {
    if s == "" then 0 else 10 * DigitsValue(s[..|s| - 1]) + (s[|s| - 1] as nat - '0' as nat)
  }

  /** Digits without a leading zero. */
  predicate IsCanonical(s: string) { s != "" && IsDigits(s) && (|s| > 1 ==> s[0] != '0') }

  /** The offset of a cursor: a safe integer whose own text is the cursor. */
  function CursorOffset(cursor: Option<string>): Option<nat> {
    match cursor
    case None => Some(0)
    case Some(s) => if IsCanonical(s) && DigitsValue(s) <= MAX_SAFE_INTEGER then Some(DigitsValue(s)) else None
  }

  lemma {:induction false} DecimalIsCanonical(n: nat)
    ensures IsCanonical(Decimal(n)) && DigitsValue(Decimal(n)) == n && (n > 0 ==> Decimal(n)[0] != '0')
  {
    var s := Decimal(n);
    if n < 10 {
      assert s[..0] == "";
    } else {
      DecimalIsCanonical(n / 10);
      assert s[..|s| - 1] == Decimal(n / 10);
    }
  }

  lemma {:induction false} CanonicalIsDecimal(s: string)
    requires IsCanonical(s)
    ensures Decimal(DigitsValue(s)) == s
  {
    var front, last := s[..|s| - 1], s[|s| - 1];
    if |s| == 1 {
      assert front == "" && DigitsValue(front) == 0;
      assert s == [last];
    } else {
      assert IsCanonical(front);
      CanonicalIsDecimal(front);
      FrontIsPositive(front);
      assert DigitsValue(s) / 10 == DigitsValue(front) && DigitsValue(s) % 10 == last as nat - '0' as nat;
      assert front + [last] == s;
    }
  }

  lemma {:induction false} FrontIsPositive(s: string)
    requires IsCanonical(s) && s[0] != '0'
    ensures DigitsValue(s) > 0
  {
    if |s| == 1 { assert s[..0] == ""; } else { FrontIsPositive(s[..|s| - 1]); }
  }

  /** Exactly the texts of safe integers are accepted, each as its own integer. */
  lemma CursorRoundTrip(s: string, n: nat)
    ensures CursorOffset(Some(s)) == Some(n) <==> s == Decimal(n) && n <= MAX_SAFE_INTEGER
  {
    DecimalIsCanonical(n);
    if IsCanonical(s) { CanonicalIsDecimal(s); }
  }

  // ---- one page ----

  datatype Source = Coinbase | PayAi
  datatype Request = Request(source: Source, searching: bool, limit: Option<nat>, cursor: Option<string>)

  /** What upstream answered: its items, and the total and offset it may report. */
  datatype Upstream<T> = Upstream(items: seq<T>, total: Option<int>, offset: Option<nat>)

  datatype Page<T> = Page(items: seq<T>, next: Option<string>) | PageError(code: string)

  function LimitOf(r: Request): nat {
    if r.limit.None? || r.limit.value > PAGE_LIMIT then PAGE_LIMIT else r.limit.value
  }

  /** `array.slice(from, to)`, which clamps both ends. */
  function Slice<T>(s: seq<T>, from: nat, to: nat): (r: seq<T>)
    ensures |r| <= if to > from then to - from else 0
  {
    var lo := if from < |s| then from else |s|;
    var hi := if to < |s| then to else |s|;
    if lo <= hi then s[lo..hi] else []
  }

  function PageOffset(offset: nat): nat { offset / PAGE_LIMIT * PAGE_LIMIT }

  function NextCursor(offset: nat, taken: nat, more: bool): Option<string> {
    if more && offset + taken > offset then Some(Decimal(offset + taken)) else None
  }

  function CoinbasePage<T>(offset: nat, limit: nat, up: Upstream<T>): Page<T> {
    if up.offset.Some? && up.offset.value != PageOffset(offset) then PageError("catalog_source_position_invalid")
    else
      var within := offset - PageOffset(offset);
      var items := Slice(up.items, within, within + limit);
      var more := if up.total.None? then within + |items| < |up.items| || |up.items| >= PAGE_LIMIT
                  else offset + |items| < up.total.value;
      Page(items, NextCursor(offset, |items|, more))
  }

  function PayAiPage<T>(offset: nat, limit: nat, up: Upstream<T>): Page<T> {
    if |up.items| > limit then PageError("catalog_source_invalid")
    else
      var more := if up.total.Some? && -(MAX_SAFE_INTEGER as int) <= up.total.value <= MAX_SAFE_INTEGER
                  then offset + |up.items| < up.total.value else |up.items| == limit;
      Page(up.items, NextCursor(offset, |up.items|, more))
  }

  /** One page; `up` is what the source answers to the request this makes. */
  function FetchCatalogPage<T>(r: Request, up: Upstream<T>): Page<T> {
    var offset := CursorOffset(r.cursor);
    if offset.None? then PageError("catalog_cursor_invalid")
    else match r.source
      case Coinbase =>
        if r.searching then
          if offset.value != 0 then PageError("catalog_search_has_no_cursor") else Page(up.items, None)
        else CoinbasePage(offset.value, LimitOf(r), up)
      case PayAi =>
        if r.searching then PageError("payai_browse_only") else PayAiPage(offset.value, LimitOf(r), up)
  }

  /** Each refusal of a request, with exactly the case it stands for. */
  lemma FetchErrorsIff<T>(r: Request, up: Upstream<T>)
    ensures var answer, offset := FetchCatalogPage(r, up), CursorOffset(r.cursor);
            var browses := offset.Some? && !r.searching;
            && (answer == PageError("catalog_cursor_invalid") <==> offset.None?)
            && (answer == PageError("catalog_search_has_no_cursor") <==>
                  offset.Some? && r.searching && r.source.Coinbase? && offset.value > 0)
            && (answer == PageError("payai_browse_only") <==> offset.Some? && r.searching && r.source.PayAi?)
            && (answer == PageError("catalog_source_position_invalid") <==>
                  browses && r.source.Coinbase? && up.offset.Some? && up.offset.value != offset.value - offset.value % 20)
            && (answer == PageError("catalog_source_invalid") <==> browses && r.source.PayAi? && |up.items| > LimitOf(r))
            && (offset.Some? && r.searching && r.source.Coinbase? && offset.value == 0 ==> answer == Page(up.items, None))
  {
  }

  /** A limit is what was asked for, and twenty without one or beyond. */
  lemma LimitIs(r: Request)
    ensures (r.limit.None? ==> LimitOf(r) == 20)
            && (r.limit.Some? ==> LimitOf(r) <= r.limit.value && LimitOf(r) <= 20 && (LimitOf(r) == r.limit.value || LimitOf(r) == 20))
  {
  }

  /**
   What a browse page shows of any answer. Coinbase: the items from the position within the
   twenty-item page, as many as the limit and the answer allow. PayAI: the whole answer. More is
   expected up to a reported total, and without one after a full page or beside unshown items.
   */
  lemma BrowseShows<T>(r: Request, up: Upstream<T>)
    requires CursorOffset(r.cursor).Some? && !r.searching && FetchCatalogPage(r, up).Page?
    ensures var p, offset, limit, n := FetchCatalogPage(r, up), CursorOffset(r.cursor).value, LimitOf(r), |up.items|;
            var at := if r.source.Coinbase? then offset % 20 else 0;
            var left := if n > at then n - at else 0;
            && |p.items| == (if limit < left then limit else left)
            && (forall k :: 0 <= k < |p.items| ==> p.items[k] == up.items[at + k])
            && (p.next.Some? ==> p.next.value == Decimal(offset + |p.items|))
            && (p.next.Some? <==>
                  && |p.items| > 0
                  && if up.total.Some? && (r.source.PayAi? ==> -9007199254740991 <= up.total.value <= 9007199254740991)
                     then up.total.value > offset + |p.items|
                     else if r.source.Coinbase? then n >= 20 || left > |p.items| else n == limit)
  {
    var offset := CursorOffset(r.cursor).value;
    assert offset - PageOffset(offset) == offset % 20;
  }

  /** Whatever upstream answers, a browse page is within its limit and its cursor moves on by exactly its items. */
  lemma CursorAdvances<T>(r: Request, up: Upstream<T>)
    requires !r.searching && FetchCatalogPage(r, up).Page?
    ensures var p := FetchCatalogPage(r, up);
            && CursorOffset(r.cursor).Some? && |p.items| <= LimitOf(r)
            && (p.next.Some? ==>
                  && p.items != []
                  && p.next.value == Decimal(CursorOffset(r.cursor).value + |p.items|)
                  && (CursorOffset(r.cursor).value + |p.items| <= MAX_SAFE_INTEGER ==>
                        CursorOffset(p.next) == Some(CursorOffset(r.cursor).value + |p.items|)))
  {
    var p := FetchCatalogPage(r, up);
    if p.next.Some? {
      var next := CursorOffset(r.cursor).value + |p.items|;
      CursorRoundTrip(Decimal(next), next);
    }
  }

  // ---- walking an honest source ----

  /** The answer of a source that serves one fixed list, with or without its total. */
  function Honest<T>(list: seq<T>, source: Source, offset: nat, limit: nat, reportsTotal: bool): Upstream<T> {
    var total := if reportsTotal then Some(|list| as int) else None;
    match source
    case Coinbase =>
      var at := PageOffset(offset);
      Upstream(Slice(list, at, at + PAGE_LIMIT), total, Some(at))
    case PayAi => Upstream(Slice(list, offset, offset + limit), total, None)
  }

  function Browse<T>(list: seq<T>, source: Source, reportsTotal: bool, cursor: Option<string>, limit: nat): Page<T> {
    var offset := if CursorOffset(cursor).Some? then CursorOffset(cursor).value else 0;
    FetchCatalogPage(Request(source, false, Some(limit), cursor), Honest(list, source, offset, limit, reportsTotal))
  }

  /** The page at an offset is the next `limit` items, cut short only at the end of the list or of a Coinbase page. */
  lemma BrowsePage<T>(list: seq<T>, source: Source, reportsTotal: bool, offset: nat, limit: nat)
    requires 1 <= limit <= PAGE_LIMIT && offset <= |list| <= MAX_SAFE_INTEGER
    ensures var p := Browse(list, source, reportsTotal, Some(Decimal(offset)), limit);
            && p.Page?
            && offset + |p.items| <= |list| && p.items == list[offset..offset + |p.items|]
            && (p.items == [] <==> offset == |list|)
            && (p.next.None? ==> offset + |p.items| == |list|)
            && (p.next.Some? ==> p.next.value == Decimal(offset + |p.items|) && p.items != [])
  {
    CursorRoundTrip(Decimal(offset), offset);
    match source
    case Coinbase => CoinbaseHonest(list, reportsTotal, offset, limit);
    case PayAi =>
  }

  /** A limit-sized slice of a 20-item slice is the next items of the list, up to the page boundary. */
  lemma SliceOfPage<T>(list: seq<T>, at: nat, offset: nat, limit: nat)
    requires at <= offset < at + PAGE_LIMIT && offset <= |list|
    ensures var page := Slice(list, at, at + PAGE_LIMIT);
            var items := Slice(page, offset - at, offset - at + limit);
            var end := if at + PAGE_LIMIT <= |list| then at + PAGE_LIMIT else |list|;
            && |page| == end - at
            && |items| == (if offset + limit <= end then limit else end - offset)
            && items == list[offset..offset + |items|]
  {
    var end := if at + PAGE_LIMIT <= |list| then at + PAGE_LIMIT else |list|;
    var to := if offset + limit <= end then offset + limit else end;
    assert Slice(list, at, at + PAGE_LIMIT) == list[at..end];
    SliceOfSlice(list, at, end, offset, to);
  }

  lemma SliceOfSlice<T>(list: seq<T>, at: nat, end: nat, from: nat, to: nat)
    requires at <= from <= to <= end <= |list|
    ensures list[at..end][from - at..to - at] == list[from..to]
  {
    var inner := list[at..end];
    forall k | 0 <= k < to - from
      ensures inner[from - at..to - at][k] == list[from..to][k]
    {
      assert inner[from - at..to - at][k] == inner[from - at + k] == list[from + k];
    }
  }

  lemma CoinbaseHonest<T>(list: seq<T>, reportsTotal: bool, offset: nat, limit: nat)
    requires 1 <= limit <= PAGE_LIMIT && offset <= |list|
    ensures var p := CoinbasePage(offset, limit, Honest(list, Coinbase, offset, limit, reportsTotal));
            && p.Page?
            && offset + |p.items| <= |list| && p.items == list[offset..offset + |p.items|]
            && (p.items == [] <==> offset == |list|)
            && (p.next.None? ==> offset + |p.items| == |list|)
            && (p.next.Some? ==> p.next.value == Decimal(offset + |p.items|) && p.items != [])
  {
    SliceOfPage(list, PageOffset(offset), offset, limit);
  }

  /** The page at an offset, with what `BrowsePage` says of it. */
  function PageAt<T>(list: seq<T>, source: Source, reportsTotal: bool, offset: nat, limit: nat): (p: Page<T>)
    requires 1 <= limit <= PAGE_LIMIT && offset <= |list| <= MAX_SAFE_INTEGER
    ensures p.Page? && offset + |p.items| <= |list| && p.items == list[offset..offset + |p.items|]
    ensures p.next.None? ==> offset + |p.items| == |list|
    ensures p.next.Some? ==> p.items != [] && CursorOffset(p.next) == Some(offset + |p.items|)
  {
    BrowsePage(list, source, reportsTotal, offset, limit);
    var p := Browse(list, source, reportsTotal, Some(Decimal(offset)), limit);
    CursorRoundTrip(Decimal(offset + |p.items|), offset + |p.items|);
    p
  }

  lemma SplitAt<T>(list: seq<T>, from: nat, to: nat)
    requires from <= to <= |list|
    ensures list[from..to] + list[to..] == list[from..]
    ensures to == |list| ==> list[from..to] == list[from..]
  {
  }

  /**
   Everything collected by following the cursor from an offset, with any limit at each
   step: every remaining item once and in order, with or without a reported total.
   */
  function Walk<T>(list: seq<T>, source: Source, reportsTotal: bool, limits: nat -> nat, step: nat, offset: nat)
    : (collected: seq<T>)
    requires offset <= |list| <= MAX_SAFE_INTEGER && forall k :: 1 <= limits(k) <= PAGE_LIMIT
    ensures collected == list[offset..]
    decreases |list| - offset
  {
    var p := PageAt(list, source, reportsTotal, offset, limits(step));
    SplitAt(list, offset, offset + |p.items|);
    if p.next.None? then p.items
    else p.items + Walk(list, source, reportsTotal, limits, step + 1, CursorOffset(p.next).value)
  }

  /** The first request carries no cursor, reads the page of cursor "0", and its walk is the whole list. */
  lemma WalkFromStart<T>(list: seq<T>, source: Source, reportsTotal: bool, limits: nat -> nat)
    requires |list| <= MAX_SAFE_INTEGER && forall k :: 1 <= limits(k) <= PAGE_LIMIT
    ensures Browse(list, source, reportsTotal, None, limits(0)) == PageAt(list, source, reportsTotal, 0, limits(0))
    ensures Walk(list, source, reportsTotal, limits, 0, 0) == list
  {
    CursorRoundTrip(Decimal(0), 0);
  }
}
