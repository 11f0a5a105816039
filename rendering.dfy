/**
 * The rendering arithmetic of main.py: fmt_price, the five-per-page window of
 * build_results_text with its numbering and its two fallback messages, the visible and
 * has_more figures the handlers compute, and the buttons of results_kb.
 */
module Rendering {
  import opened Wrappers
  import opened Text
  import opened Dates
  import opened Merge
  import opened State

  const PageSize: nat := 5

  // ------------------------------------------------------------ fmt_price

  /** Digits grouped in threes from the right, groups separated by a space. */
  function Group3(d: string): (g: string)
    ensures d != [] ==> g != [] && g[0] == d[0]
    ensures d != [] ==> |g| == |d| + (|d| - 1) / 3
    ensures (forall k :: 0 <= k < |d| ==> IsDigit(d[k])) ==>
              forall i :: 0 <= i < |g| ==> (g[i] == ' ' <==> (|g| - i) % 4 == 0)
    decreases |d|
  {
    if |d| <= 3 then d
    else
      var g := Group3(d[..|d| - 3]);
      Group3Step(d, g);
      g + " " + d[|d| - 3..]
  }

  /** One more group of three digits after a space keeps the length and the separator positions. */
  lemma Group3Step(d: string, g: string)
    requires |d| > 3 && g != [] && g[0] == d[0]
    requires |g| == |d| - 3 + (|d| - 4) / 3
    requires (forall k :: 0 <= k < |d| ==> IsDigit(d[k])) ==>
               forall i :: 0 <= i < |g| ==> (g[i] == ' ' <==> (|g| - i) % 4 == 0)
    ensures var r := g + " " + d[|d| - 3..];
            r[0] == d[0] && |r| == |d| + (|d| - 1) / 3 &&
            ((forall k :: 0 <= k < |d| ==> IsDigit(d[k])) ==>
               forall i :: 0 <= i < |r| ==> (r[i] == ' ' <==> (|r| - i) % 4 == 0))
  {
    var r := g + " " + d[|d| - 3..];
    if forall k :: 0 <= k < |d| ==> IsDigit(d[k]) {
      forall i | 0 <= i < |r| ensures r[i] == ' ' <==> (|r| - i) % 4 == 0 {
        if i < |g| {
          assert r[i] == g[i];
          assert (|r| - i) % 4 == (|g| - i) % 4;
        } else if i > |g| {
          assert r[i] == d[|d| - 3 + (i - |g| - 1)];
        }
      }
    }
  }

  function RemoveSpaces(s: string): string {
    if s == [] then [] else RemoveSpaces(s[..|s| - 1]) + (if s[|s| - 1] == ' ' then [] else [s[|s| - 1]])
  }

  lemma {:induction false} RemoveSpacesAppend(a: string, b: string)
    ensures RemoveSpaces(a + b) == RemoveSpaces(a) + RemoveSpaces(b)
    decreases |b|
  {
    if b == [] {
      assert a + b == a;
    } else {
      var b' := b[..|b| - 1];
      assert (a + b)[..|a + b| - 1] == a + b';
      RemoveSpacesAppend(a, b');
    }
  }

  lemma {:induction false} RemoveSpacesNone(s: string)
    requires forall k :: 0 <= k < |s| ==> s[k] != ' '
    ensures RemoveSpaces(s) == s
    decreases |s|
  {
    if s != [] {
      RemoveSpacesNone(s[..|s| - 1]);
    }
  }

  /** Joining two space-free parts with a space and removing the spaces concatenates them. */
  lemma RemoveSpacesJoin(g: string, hi: string, lo: string)
    requires RemoveSpaces(g) == hi
    requires forall k :: 0 <= k < |lo| ==> lo[k] != ' '
    ensures RemoveSpaces(g + " " + lo) == hi + lo
  {
    RemoveSpacesAppend(g + " ", lo);
    RemoveSpacesAppend(g, " ");
    RemoveSpacesNone(lo);
    assert RemoveSpaces(" ") == [];
  }

  /** Deleting the separators gives the digits back. */
  lemma {:induction false} Group3RemoveSpaces(d: string)
    requires forall k :: 0 <= k < |d| ==> IsDigit(d[k])
    ensures RemoveSpaces(Group3(d)) == d
    decreases |d|
  {
    if |d| <= 3 {
      RemoveSpacesNone(d);
    } else {
      var hi, lo := d[..|d| - 3], d[|d| - 3..];
      Group3RemoveSpaces(hi);
      RemoveSpacesJoin(Group3(hi), hi, lo);
      assert hi + lo == d;
    }
  }

  /**
   * fmt_price: None is shown as a dash; an integer as f"{v:,}" with spaces for commas,
   * then a space and the currency code in upper case.
   */
  function FmtPrice(v: Option<int>, currency: string): (r: string)
    ensures v.None? ==> r == "—"
    ensures v.Some? ==> |r| > |currency| + 1 && r[|r| - |currency| - 1..] == " " + Upper(currency)
    ensures v.Some? && v.value > 0 ==> r[0] != '0'
  {
    match v
    case None => "—"
    case Some(n) =>
      NatToStringNoLeadingZero(if n < 0 then -n else n);
      Grouped(n) + " " + Upper(currency)
  }

  /** f"{v:,}" with spaces: a sign for negatives, then the grouped digits of the magnitude. */
  function Grouped(v: int): string {
    (if v < 0 then "-" else "") + Group3(NatToString(if v < 0 then -v else v))
  }

  /** Reads an amount back from the text fmt_price shows. */
  function ParsePrice(text: string, currency: string): Option<int> {
    match DropSuffix(" " + Upper(currency), text)
    case None => None
    case Some(body) => ParseGrouped(body)
  }

  /** An optional minus sign, then digits with any spaces between them. */
  function ParseGrouped(body: string): Option<int> {
    var neg := body != [] && body[0] == '-';
    var digits := RemoveSpaces(if neg then body[1..] else body);
    var m: int := if IsDigits(digits) then DigitsValue(digits) else 0;
    if IsDigits(digits) then Some(if neg then -m else m) else None
  }

  /** A digit group text, with or without a leading minus, parses to its value. */
  lemma ParseGroupedSign(x: string, digits: string, neg: bool)
    requires RemoveSpaces(x) == digits && IsDigits(digits)
    requires x != [] && digits != [] && x[0] == digits[0]
    ensures ParseGrouped(if neg then "-" + x else x) ==
            Some(if neg then 0 - DigitsValue(digits) as int else DigitsValue(digits))
  {
    if neg {
      assert ("-" + x)[1..] == x;
    } else {
      assert IsDigit(x[0]);
    }
  }

  lemma ParseGroupedRoundTrip(v: int)
    ensures ParseGrouped(Grouped(v)) == Some(v)
  {
    var n := if v < 0 then -v else v;
    var digits := NatToString(n);
    Group3RemoveSpaces(digits);
    NatToStringValue(n);
    var g := Group3(digits);
    assert Grouped(v) == if v < 0 then "-" + g else g;
    ParseGroupedSign(g, digits, v < 0);
  }

  /** The shown amount is the price: parsing fmt_price's text gives the integer back. */
  lemma FmtPriceRoundTrip(v: int, currency: string)
    ensures ParsePrice(FmtPrice(Some(v), currency), currency) == Some(v)
  {
    assert FmtPrice(Some(v), currency) == Grouped(v) + (" " + Upper(currency));
    DropSuffixConcat(" " + Upper(currency), Grouped(v));
    ParseGroupedRoundTrip(v);
  }

  /** The dash shown for a missing price never reads as an amount. */
  lemma FmtPriceNoneIsNotAmount(currency: string)
    ensures ParsePrice(FmtPrice(None, currency), currency) == None
  {
  }

  // ------------------------------------------------------------ pages

  /** min(PAGE_SIZE, max(0, n - start)): how many offers page `page` shows. */
  function Visible(n: int, page: nat): (v: nat)
    ensures v <= PageSize
  {
    Min(PageSize, Max(0, n - page * PageSize))
  }

  /** len(results) > start + PAGE_SIZE. */
  predicate HasMore(n: int, page: nat) {
    n > page * PageSize + PageSize
  }

  /** results[start:start + PAGE_SIZE] for the page's start. */
  function Window(results: seq<MergedOffer>, page: nat): (w: seq<MergedOffer>)
    ensures |w| == Visible(|results|, page)
    ensures forall i :: 0 <= i < |w| ==> w[i] == results[page * PageSize + i]
  {
    results[Min(page * PageSize, |results|)..Min(page * PageSize + PageSize, |results|)]
  }

  /** An offer line: its number as shown ("<n>.") and the offer. */
  datatype ResultLine = ResultLine(number: int, offer: MergedOffer)

  /** The body under the route and date: a "no results" message, "all shown", or offer lines. */
  datatype ResultsBody = NoResults | AllShown | Lines(lines: seq<ResultLine>)

  datatype ResultsView = ResultsView(origin: Option<string>, destination: Option<string>, date: Date, body: ResultsBody)

  /**
   * build_results_text, up to the characters: the route, the date, and the body. The source
   * formats q.depart_date first and fails without one.
   */
  function BuildResultsText(q: QueryState): (v: ResultsView)
    requires q.departDate.Some?
    ensures v.origin == q.origin && v.destination == q.destination && v.date == q.departDate.value
    ensures v.body.NoResults? <==> !HasResults(q)
    ensures v.body.AllShown? <==> HasResults(q) && |q.results.value| <= q.page * PageSize
    ensures v.body.Lines? ==>
      && |v.body.lines| == Visible(|q.results.value|, q.page) > 0
      && forall i :: 0 <= i < |v.body.lines| ==>
           v.body.lines[i] == ResultLine(q.page * PageSize + i + 1, q.results.value[q.page * PageSize + i])
  {
    var head := ResultsView(q.origin, q.destination, q.departDate.value, NoResults);
    if !HasResults(q) then head
    else
      var chunk := Window(q.results.value, q.page);
      if chunk == [] then head.(body := AllShown)
      else head.(body := Lines(seq(|chunk|, i requires 0 <= i < |chunk| => ResultLine(q.page * PageSize + i + 1, chunk[i]))))
  }

  /** "Показать ещё" is offered exactly when the next page has offers to show. */
  lemma HasMoreIffNextPageShown(q: QueryState)
    requires q.departDate.Some? && HasResults(q)
    ensures HasMore(|q.results.value|, q.page) <==> BuildResultsText(q.(page := q.page + 1)).body.Lines?
  {
  }

  /** The offers of pages 0 .. k-1, in order. */
  function Pages(results: seq<MergedOffer>, k: nat): seq<MergedOffer> {
    if k == 0 then [] else Pages(results, k - 1) + Window(results, k - 1)
  }

  /** Paging shows every offer once and in order: the first k pages are the first 5k offers. */
  lemma {:induction false} PagesCover(results: seq<MergedOffer>, k: nat)
    ensures Pages(results, k) == results[..Min(k * PageSize, |results|)]
    decreases k
  {
    if k > 0 {
      PagesCover(results, k - 1);
      var a := Min((k - 1) * PageSize, |results|);
      var b := Min(k * PageSize, |results|);
      assert Window(results, k - 1) == results[a..b];
      assert results[..a] + results[a..b] == results[..b];
    }
  }

  // ------------------------------------------------------------ results_kb

  datatype Button = Buy(idx: int) | ShowMore | NewSearch

  /** The buttons of results_kb(visible, start_index, has_more), row by row. */
  function KbRows(visible: int, start: int, hasMore: bool): seq<seq<Button>> {
    seq(Max(visible, 0), i requires 0 <= i < Max(visible, 0) => [Buy(start + i)])
      + [if hasMore then [ShowMore, NewSearch] else [NewSearch]]
  }

  /** results_kb: one "Купить #n" row per visible offer, then the navigation row. */
  method ResultsKb(visible: int, start: int, hasMore: bool) returns (rows: seq<seq<Button>>)
    ensures rows == KbRows(visible, start, hasMore)
  {
    rows := [];
    var i := 0;
    while i < visible
      invariant 0 <= i <= Max(visible, 0)
      invariant rows == seq(i, j requires 0 <= j < i => [Buy(start + j)])
    {
      rows := rows + [[Buy(start + i)]];
      i := i + 1;
    }
    var nav := [NewSearch];
    if hasMore {
      nav := [ShowMore] + nav;
      assert nav == [ShowMore, NewSearch];
    }
    assert rows == seq(Max(visible, 0), j requires 0 <= j < Max(visible, 0) => [Buy(start + j)]);
    rows := rows + [nav];
  }

  /** Some row holds the button. */
  predicate InRows(b: Button, rows: seq<seq<Button>>) {
    exists r :: 0 <= r < |rows| && b in rows[r]
  }

  /**
   * The keyboard buys exactly the offers start .. start + visible - 1; "Показать ещё" is
   * present iff has_more, and then first in the last row, before "Новый поиск".
   */
  lemma KbRowsButtons(visible: int, start: int, hasMore: bool)
    ensures forall idx :: InRows(Buy(idx), KbRows(visible, start, hasMore)) <==> start <= idx < start + visible
    ensures InRows(ShowMore, KbRows(visible, start, hasMore)) <==> hasMore
    ensures var rows := KbRows(visible, start, hasMore);
            rows[|rows| - 1][|rows[|rows| - 1]| - 1] == NewSearch
            && (rows[|rows| - 1][0] == ShowMore <==> hasMore)
  {
    var rows := KbRows(visible, start, hasMore);
    var m := Max(visible, 0);
    forall idx ensures InRows(Buy(idx), rows) <==> start <= idx < start + visible {
      if start <= idx < start + visible {
        assert Buy(idx) in rows[idx - start];
      }
      if InRows(Buy(idx), rows) {
        var r :| 0 <= r < |rows| && Buy(idx) in rows[r];
        assert r < m;
      }
    }
    if hasMore {
      assert ShowMore in rows[m];
    }
  }

  /**
   * The keyboard a handler sends with a page of lines buys exactly the offers on those
   * lines: Buy(idx) is present iff the page shows line number idx + 1, and then idx is a
   * valid index of the results.
   */
  lemma KeyboardMatchesPage(q: QueryState)
    requires q.departDate.Some? && HasResults(q)
    ensures var n := |q.results.value|;
            var rows := KbRows(Visible(n, q.page), q.page * PageSize, HasMore(n, q.page));
            var body := BuildResultsText(q).body;
            forall idx :: InRows(Buy(idx), rows) <==>
              body.Lines? && exists i :: 0 <= i < |body.lines| && body.lines[i].number == idx + 1
    ensures var n := |q.results.value|;
            forall idx :: InRows(Buy(idx), KbRows(Visible(n, q.page), q.page * PageSize, HasMore(n, q.page))) ==> 0 <= idx < n
  {
    var n := |q.results.value|;
    var start := q.page * PageSize;
    var rows := KbRows(Visible(n, q.page), start, HasMore(n, q.page));
    var body := BuildResultsText(q).body;
    KbRowsButtons(Visible(n, q.page), start, HasMore(n, q.page));
    forall idx ensures InRows(Buy(idx), rows) <==> body.Lines? && exists i :: 0 <= i < |body.lines| && body.lines[i].number == idx + 1 {
      if InRows(Buy(idx), rows) {
        assert body.lines[idx - start].number == idx + 1;
      }
    }
  }
}
