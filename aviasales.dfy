/**
 * The provider adapter of aviasales.py: IATA validation, the Travelpayouts deeplink,
 * the validated five-item price lookup for one date, and fetch_cheapest, which queries
 * one date per shift of the flex window, builds canonical flight records with an
 * affiliate search link, ranks them by price and keeps the first of each
 * (departure, flight number) pair, at most ten.
 *
 * Provider responses are inputs: a provider is a function from the query sent to the
 * response received.
 */
module Aviasales {
  import opened Wrappers
  import opened Text
  import opened Dates
  import opened Ranking

  datatype SearchError =
    | InvalidIata(code: string)   // "IATA ожидалось из 3 букв, получил: <code>"
    | InvalidDate(date: string)   // "Дата должна быть в формате YYYY-MM-DD"

  // ------------------------------------------------------------ ensure_iata

  /** code is three letters with nothing but whitespace before (i characters) and after them. */
  predicate PaddedCode(code: string, i: int) {
    0 <= i && i + 3 <= |code| && AllSpace(code[..i]) && AllLetters(code[i..i + 3]) && AllSpace(code[i + 3..])
  }

  lemma UpperKeepsLetters(s: string)
    ensures AllLetters(Upper(s)) <==> AllLetters(s)
    ensures AllLetters(s) ==> AllUpper(Upper(s))
  {
    if AllLetters(Upper(s)) {
      forall k | 0 <= k < |s| ensures IsLetter(s[k]) {
        assert IsLetter(Upper(s)[k]);
      }
    }
  }

  /**
   * ensure_iata: strip, upper-case, and accept exactly three letters. A code is accepted
   * exactly when it is three letters padded with whitespace, and the result is those
   * letters in upper case; otherwise the error names the code as given.
   */
  function EnsureIata(code: string): (r: Result<string, SearchError>)
    ensures r.Ok? <==> exists i :: PaddedCode(code, i)
    ensures forall i :: PaddedCode(code, i) ==> r == Ok(Upper(code[i..i + 3]))
    ensures r.Ok? ==> |r.value| == 3 && AllUpper(r.value)
    ensures r.Err? ==> r.error == InvalidIata(code)
  {
    var t := Strip(code);
    var c := Upper(t);
    UpperKeepsLetters(t);
    if |c| != 3 || !AllLetters(c) then
      forall i | PaddedCode(code, i) ensures false {
        PaddedStrips(code, i);
      }
      Err(InvalidIata(code))
    else
      var i, j :| StripSlice(code, i, j) && t == code[i..j];
      assert PaddedCode(code, i);
      forall i' | PaddedCode(code, i') ensures Upper(code[i'..i' + 3]) == c {
        PaddedStrips(code, i');
      }
      Ok(c)
  }

  lemma PaddedStrips(code: string, i: int)
    requires PaddedCode(code, i)
    ensures Strip(code) == code[i..i + 3]
  {
    var w := code[i..i + 3];
    assert !IsSpace(w[0]) && !IsSpace(w[2]) by {
      assert IsLetter(w[0]) && IsLetter(w[2]);
    }
    assert code == code[..i] + w + code[i + 3..];
    StripPadded(code[..i], w, code[i + 3..]);
  }

  /** ensure_iata accepts its own output unchanged. */
  lemma EnsureIataIdempotent(code: string)
    requires EnsureIata(code).Ok?
    ensures EnsureIata(EnsureIata(code).value) == EnsureIata(code)
  {
    var v := EnsureIata(code).value;
    assert v[0..3] == v && v[..0] == [] && v[3..] == [];
    assert PaddedCode(v, 0);
    assert Upper(v) == v;
  }

  // ------------------------------------------------------------ tp_deeplink

  /** TP_MARKER, LOCALE, CURRENCY and SUB_ID, read from the environment by the source. */
  datatype TpConfig = TpConfig(marker: string, locale: string, currency: string, subId: string)

  function DeeplinkHead(cfg: TpConfig): string {
    "https://tp.media/r?marker=" + cfg.marker + "&locale=" + cfg.locale + "&currency=" + cfg.currency + "&origin="
  }

  function SubIdTail(cfg: TpConfig): string {
    if cfg.subId != "" then "&sub_id=" + cfg.subId else ""
  }

  /**
   * tp_deeplink: both codes are validated, origin first; the link is the fixed query string
   * over the normalised codes and the date as given, with "&sub_id=" only when SUB_ID is set.
   */
  function TpDeeplink(origin: string, destination: string, date: string, cfg: TpConfig): (r: Result<string, SearchError>)
    ensures r.Err? <==> EnsureIata(origin).Err? || EnsureIata(destination).Err?
    ensures EnsureIata(origin).Err? ==> r == Err(InvalidIata(origin))
    ensures EnsureIata(origin).Ok? && EnsureIata(destination).Err? ==> r == Err(InvalidIata(destination))
    ensures r.Ok? ==> |r.value| == |DeeplinkHead(cfg)| + 32 + |date| + |SubIdTail(cfg)|
    ensures r.Ok? ==>
      var h := |DeeplinkHead(cfg)|;
      && r.value[..h] == DeeplinkHead(cfg)
      && r.value[h..h + 3] == EnsureIata(origin).value
      && r.value[h + 3..h + 16] == "&destination="
      && r.value[h + 16..h + 19] == EnsureIata(destination).value
      && r.value[h + 19..h + 32] == "&depart_date="
      && r.value[h + 32..h + 32 + |date|] == date
      && r.value[h + 32 + |date|..] == SubIdTail(cfg)
  {
    match EnsureIata(origin)
    case Err(e) => Err(e)
    case Ok(o) =>
      match EnsureIata(destination)
      case Err(e) => Err(e)
      case Ok(d) =>
        DeeplinkParts(o, d, date, cfg);
        Ok(DeeplinkOf(o, d, date, cfg))
  }

  lemma DeeplinkParts(o: string, d: string, date: string, cfg: TpConfig)
    requires |o| == 3 && |d| == 3
    ensures var s, h := DeeplinkOf(o, d, date, cfg), |DeeplinkHead(cfg)|;
      && |s| == h + 32 + |date| + |SubIdTail(cfg)|
      && s[..h] == DeeplinkHead(cfg) && s[h..h + 3] == o && s[h + 3..h + 16] == "&destination="
      && s[h + 16..h + 19] == d && s[h + 19..h + 32] == "&depart_date="
      && s[h + 32..h + 32 + |date|] == date && s[h + 32 + |date|..] == SubIdTail(cfg)
  {
    var h := |DeeplinkHead(cfg)|;
    var a := DeeplinkHead(cfg) + o;
    var b := a + "&destination=";
    var c := b + d;
    var e := c + "&depart_date=";
    var f := e + date;
    var s := f + SubIdTail(cfg);
    assert s == DeeplinkOf(o, d, date, cfg);
    assert s[..|f|] == f && s[|f|..] == SubIdTail(cfg);
    assert f[..|e|] == e && f[|e|..] == date;
    assert e[..|c|] == c && e[|c|..] == "&depart_date=";
    assert c[..|b|] == b && c[|b|..] == d;
    assert b[..|a|] == a && b[|a|..] == "&destination=";
    assert a[..h] == DeeplinkHead(cfg) && a[h..] == o;
  }

  function DeeplinkOf(o: string, d: string, date: string, cfg: TpConfig): string {
    DeeplinkHead(cfg) + o + "&destination=" + d + "&depart_date=" + date + SubIdTail(cfg)
  }

  /** Reads origin, destination and date back out of a deeplink built with cfg. */
  function ParseDeeplink(link: string, cfg: TpConfig): Option<(string, string, string)> {
    match DropPrefix(DeeplinkHead(cfg), link)
    case None => None
    case Some(r1) =>
      if |r1| < 3 then None
      else match DropPrefix("&destination=", r1[3..])
        case None => None
        case Some(r2) =>
          if |r2| < 3 then None
          else match DropPrefix("&depart_date=", r2[3..])
            case None => None
            case Some(r3) =>
              match DropSuffix(SubIdTail(cfg), r3)
              case None => None
              case Some(date) => Some((r1[..3], r2[..3], date))
  }

  /**
   * The deeplink encodes exactly the normalised route and the date: parsing it gives them
   * back, so links for different routes or dates never coincide.
   */
  lemma DeeplinkRoundTrip(origin: string, destination: string, date: string, cfg: TpConfig)
    requires TpDeeplink(origin, destination, date, cfg).Ok?
    ensures ParseDeeplink(TpDeeplink(origin, destination, date, cfg).value, cfg)
            == Some((EnsureIata(origin).value, EnsureIata(destination).value, date))
  {
    ParseDeeplinkOf(EnsureIata(origin).value, EnsureIata(destination).value, date, cfg);
  }

  lemma ParseDeeplinkOf(o: string, d: string, date: string, cfg: TpConfig)
    requires |o| == 3 && |d| == 3
    ensures ParseDeeplink(DeeplinkOf(o, d, date, cfg), cfg) == Some((o, d, date))
  {
    var tail := SubIdTail(cfg);
    var r3 := date + tail;
    var r2 := d + ("&depart_date=" + r3);
    var r1 := o + ("&destination=" + r2);
    assert DeeplinkOf(o, d, date, cfg) == DeeplinkHead(cfg) + r1;
    DropPrefixConcat(DeeplinkHead(cfg), r1);
    assert r1[..3] == o && r1[3..] == "&destination=" + r2;
    DropPrefixConcat("&destination=", r2);
    assert r2[..3] == d && r2[3..] == "&depart_date=" + r3;
    DropPrefixConcat("&depart_date=", r3);
    DropSuffixConcat(tail, date);
  }

  lemma DeeplinkInjective(o1: string, d1: string, t1: string, o2: string, d2: string, t2: string, cfg: TpConfig)
    requires TpDeeplink(o1, d1, t1, cfg).Ok? && TpDeeplink(o2, d2, t2, cfg).Ok?
    requires TpDeeplink(o1, d1, t1, cfg) == TpDeeplink(o2, d2, t2, cfg)
    ensures EnsureIata(o1) == EnsureIata(o2) && EnsureIata(d1) == EnsureIata(d2) && t1 == t2
  {
    DeeplinkRoundTrip(o1, d1, t1, cfg);
    DeeplinkRoundTrip(o2, d2, t2, cfg);
  }

  /** SUB_ID only appends "&sub_id=<SUB_ID>" to the link built without it. */
  lemma DeeplinkSubId(origin: string, destination: string, date: string, cfg: TpConfig)
    requires TpDeeplink(origin, destination, date, cfg).Ok?
    ensures TpDeeplink(origin, destination, date, cfg.(subId := "")).Ok?
    ensures TpDeeplink(origin, destination, date, cfg).value
            == TpDeeplink(origin, destination, date, cfg.(subId := "")).value
               + (if cfg.subId == "" then "" else "&sub_id=" + cfg.subId)
  {
  }

  // ------------------------------------------------------------ tp_search_prices_for_date

  /** One raw item of the prices_for_dates response; None is a missing key or JSON null. */
  datatype AvItem = AvItem(
    departureAt: Option<string>,
    price: Option<int>,
    transfers: Option<int>,
    flightNumber: Option<string>,
    airline: Option<string>)

  /** The request parameters of tp_search_prices_for_date (the token header is left out). */
  datatype TpQuery = TpQuery(origin: string, destination: string, departureAt: string, currency: string, locale: string, limit: int)

  /** The "data" member of the response: a list, or something else. A missing member reads as []. */
  datatype TpPayload = DataList(items: seq<AvItem>) | DataNotList

  datatype TpResponse = TpResponse(status: int, payload: TpPayload)

  /** The validation prefix: both codes, then the date, before anything is sent. */
  function TpPricesQuery(origin: string, destination: string, date: string, cfg: TpConfig): (r: Result<TpQuery, SearchError>)
    ensures r.Ok? <==> EnsureIata(origin).Ok? && EnsureIata(destination).Ok? && ParseDate(date).Some?
    ensures EnsureIata(origin).Err? ==> r == Err(InvalidIata(origin))
    ensures EnsureIata(origin).Ok? && EnsureIata(destination).Err? ==> r == Err(InvalidIata(destination))
    ensures EnsureIata(origin).Ok? && EnsureIata(destination).Ok? && ParseDate(date).None? ==> r == Err(InvalidDate(date))
    ensures r.Ok? ==> r.value == TpQuery(EnsureIata(origin).value, EnsureIata(destination).value, date, cfg.currency, cfg.locale, 5)
  {
    match EnsureIata(origin)
    case Err(e) => Err(e)
    case Ok(o) =>
      match EnsureIata(destination)
      case Err(e) => Err(e)
      case Ok(d) =>
        if ParseDate(date).None? then Err(InvalidDate(date))
        else Ok(TpQuery(o, d, date, cfg.currency, cfg.locale, 5))
  }

  /**
   * tp_search_prices_for_date: validation errors are raised; otherwise a non-200 status or
   * non-list data gives [], and a list gives at most its first five items.
   */
  function TpSearchPricesForDate(origin: string, destination: string, date: string, cfg: TpConfig,
                                 fetch: TpQuery -> TpResponse): (r: Result<seq<AvItem>, SearchError>)
    ensures TpPricesQuery(origin, destination, date, cfg).Err? ==> r == Err(TpPricesQuery(origin, destination, date, cfg).error)
    ensures TpPricesQuery(origin, destination, date, cfg).Ok? ==> r.Ok?
    ensures r.Ok? ==> |r.value| <= 5
    ensures r.Ok? ==>
      var resp := fetch(TpPricesQuery(origin, destination, date, cfg).value);
      if resp.status != 200 || resp.payload.DataNotList? then r.value == []
      else r.value == resp.payload.items[..Min(5, |resp.payload.items|)]
  {
    match TpPricesQuery(origin, destination, date, cfg)
    case Err(e) => Err(e)
    case Ok(q) =>
      var resp := fetch(q);
      if resp.status != 200 then Ok([])
      else match resp.payload
        case DataNotList => Ok([])
        case DataList(items) => Ok(Take(items, 5))
  }

  /** A rejected request never reaches the provider: the outcome does not depend on it. */
  lemma TpSearchRejectsBeforeRequest(origin: string, destination: string, date: string, cfg: TpConfig,
                                     f1: TpQuery -> TpResponse, f2: TpQuery -> TpResponse)
    requires TpSearchPricesForDate(origin, destination, date, cfg, f1).Err?
    ensures TpSearchPricesForDate(origin, destination, date, cfg, f2) == TpSearchPricesForDate(origin, destination, date, cfg, f1)
  {
  }

  // ------------------------------------------------------------ fetch_cheapest

  /** The query of one shift: origin, destination, the day (as its ordinal) and the currency. */
  datatype AvQuery = AvQuery(origin: string, destination: string, day: int, currency: string)

  /** status and the "data" list of one response (a missing list reads as []). */
  datatype AvResponse = AvResponse(status: int, items: seq<AvItem>)

  datatype FlightRecord = FlightRecord(
    price: Option<int>,
    airline: string,
    flightNumber: string,
    departureAt: string,
    transfers: int,
    origin: string,
    destination: string,
    link: string)

  const SearchBase := "https://www.aviasales.com/search/"

  /** The demonstration purchase link: route, departure day and month, affiliate marker. */
  function SearchLink(origin: string, dest: string, ddmm: string, marker: string): string {
    SearchBase + origin + dest + ddmm + "?marker=" + marker
  }

  /**
   * One record of the loop body. The departure must be present and parse (the ddmm
   * function stands for fromisoformat(...).strftime("%d%m")); otherwise the source raises,
   * and the result is None.
   */
  function BuildRecord(it: AvItem, origin: string, dest: string, marker: string, ddmm: string -> Option<string>): (r: Option<FlightRecord>)
    ensures r.Some? <==> it.departureAt.Some? && ddmm(it.departureAt.value).Some?
    ensures r.Some? ==>
      && r.value.origin == origin && r.value.destination == dest
      && r.value.price == it.price
      && r.value.departureAt == it.departureAt.value
      && r.value.transfers == (if it.transfers.Some? then it.transfers.value else 0)
      && r.value.flightNumber == (if it.flightNumber.Some? then it.flightNumber.value else "")
      && r.value.airline == (if it.airline.Some? then it.airline.value else "")
      && r.value.link == SearchLink(origin, dest, ddmm(it.departureAt.value).value, marker)
  {
    match it.departureAt
    case None => None
    case Some(dep) =>
      match ddmm(dep)
      case None => None
      case Some(dm) =>
        Some(FlightRecord(
          it.price,
          if it.airline.Some? then it.airline.value else "",
          if it.flightNumber.Some? then it.flightNumber.value else "",
          dep,
          if it.transfers.Some? then it.transfers.value else 0,
          origin, dest,
          SearchLink(origin, dest, dm, marker)))
  }

  /** The records of one response's items, in order; None when one of them raises. */
  function BuildAll(items: seq<AvItem>, origin: string, dest: string, marker: string, ddmm: string -> Option<string>): Option<seq<FlightRecord>> {
    if items == [] then Some([])
    else match BuildAll(items[..|items| - 1], origin, dest, marker, ddmm)
      case None => None
      case Some(rs) =>
        match BuildRecord(items[|items| - 1], origin, dest, marker, ddmm)
        case None => None
        case Some(x) => Some(rs + [x])
  }

  /** What one response contributes: nothing unless the status is 200. */
  function RecordsOf(resp: AvResponse, origin: string, dest: string, marker: string, ddmm: string -> Option<string>): Option<seq<FlightRecord>> {
    if resp.status == 200 then BuildAll(resp.items, origin, dest, marker, ddmm) else Some([])
  }

  /** range(-days_flex, days_flex + 1): 2 * days_flex + 1 shifts, none when days_flex < 0. */
  function Shifts(daysFlex: int): nat { Max(0, 2 * daysFlex + 1) }

  /** The queries of fetch_cheapest, one per shift, in increasing date order. */
  function Plan(origin: string, dest: string, depDay: int, daysFlex: int, currency: string): (p: seq<AvQuery>)
    ensures |p| == Shifts(daysFlex)
    ensures forall i :: 0 <= i < |p| ==> p[i].origin == origin && p[i].destination == dest && p[i].currency == currency
    ensures |p| > 0 ==> p[0].day == depDay - daysFlex && p[|p| - 1].day == depDay + daysFlex
    ensures forall i :: 0 < i < |p| ==> p[i].day == p[i - 1].day + 1
  {
    seq(Shifts(daysFlex), i => AvQuery(origin, dest, depDay - daysFlex + i, currency))
  }

  /** The records collected over the queries of a plan; None once one response raises. */
  function Harvest(plan: seq<AvQuery>, provider: AvQuery -> AvResponse, origin: string, dest: string,
                   marker: string, ddmm: string -> Option<string>): (r: Option<seq<FlightRecord>>)
    ensures r.Some? <==> forall i :: 0 <= i < |plan| ==> RecordsOf(provider(plan[i]), origin, dest, marker, ddmm).Some?
    ensures r.Some? && plan != [] ==>
              var more := RecordsOf(provider(plan[|plan| - 1]), origin, dest, marker, ddmm).value;
              |more| <= |r.value| && r.value[|r.value| - |more|..] == more
    decreases |plan|
  {
    if plan == [] then Some([])
    else match Harvest(plan[..|plan| - 1], provider, origin, dest, marker, ddmm)
      case None => None
      case Some(rs) =>
        match RecordsOf(provider(plan[|plan| - 1]), origin, dest, marker, ddmm)
        case None => None
        case Some(more) => Some(rs + more)
  }

  /** The sort key `price or 9e12`: a missing or zero price ranks as 9 * 10^12. */
  const FalsyPriceSentinel: int := 9_000_000_000_000

  function PriceOrSentinel(price: Option<int>): (k: int)
    ensures price.Some? && price.value != 0 ==> k == price.value
    ensures price.None? || price.value == 0 ==> k == FalsyPriceSentinel
  {
    if price.None? || price.value == 0 then FalsyPriceSentinel else price.value
  }

  /** The key `z["price"] or 9e12` of a record. */
  function RecordPriceKey(x: FlightRecord): (k: int)
    ensures x.price.Some? && x.price.value != 0 ==> k == x.price.value
    ensures x.price.None? || x.price.value == 0 ==> k == FalsyPriceSentinel
  {
    PriceOrSentinel(x.price)
  }

  function DepartureFlightKey(x: FlightRecord): (string, string) { (x.departureAt, x.flightNumber) }

  /** Sorted by price, the first of each (departure_at, flight_number), at most ten. */
  function Cheapest(records: seq<FlightRecord>): (best: seq<FlightRecord>) {
    Ranked(records, RecordPriceKey, DepartureFlightKey, 10)
  }

  lemma {:induction false} BuildAllNoneStays(items: seq<AvItem>, n: nat, origin: string, dest: string, marker: string, ddmm: string -> Option<string>)
    requires n <= |items| && BuildAll(items[..n], origin, dest, marker, ddmm).None?
    ensures BuildAll(items, origin, dest, marker, ddmm).None?
    decreases |items| - n
  {
    if n < |items| {
      assert items[..n + 1][..n] == items[..n];
      BuildAllNoneStays(items, n + 1, origin, dest, marker, ddmm);
    } else {
      assert items[..n] == items;
    }
  }

  lemma {:induction false} HarvestNoneStays(plan: seq<AvQuery>, n: nat, provider: AvQuery -> AvResponse, origin: string, dest: string,
                                            marker: string, ddmm: string -> Option<string>)
    requires n <= |plan| && Harvest(plan[..n], provider, origin, dest, marker, ddmm).None?
    ensures Harvest(plan, provider, origin, dest, marker, ddmm).None?
    decreases |plan| - n
  {
    if n < |plan| {
      assert plan[..n + 1][..n] == plan[..n];
      HarvestNoneStays(plan, n + 1, provider, origin, dest, marker, ddmm);
    } else {
      assert plan[..n] == plan;
    }
  }

  /** The inner loop of fetch_cheapest over the items of one 200 response. */
  method BuildResponseRecords(items: seq<AvItem>, origin: string, dest: string, marker: string, ddmm: string -> Option<string>)
    returns (built: Option<seq<FlightRecord>>)
    ensures built == BuildAll(items, origin, dest, marker, ddmm)
  {
    var acc: seq<FlightRecord> := [];
    var k := 0;
    while k < |items|
      invariant 0 <= k <= |items|
      invariant BuildAll(items[..k], origin, dest, marker, ddmm) == Some(acc)
    {
      var it := items[k];
      assert items[..k + 1][..k] == items[..k];
      if it.departureAt.None? {
        BuildAllNoneStays(items, k + 1, origin, dest, marker, ddmm);
        return None;
      }
      var dm := ddmm(it.departureAt.value);
      if dm.None? {
        BuildAllNoneStays(items, k + 1, origin, dest, marker, ddmm);
        return None;
      }
      var link := SearchLink(origin, dest, dm.value, marker);
      acc := acc + [FlightRecord(
        it.price,
        if it.airline.Some? then it.airline.value else "",
        if it.flightNumber.Some? then it.flightNumber.value else "",
        it.departureAt.value,
        if it.transfers.Some? then it.transfers.value else 0,
        origin, dest, link)];
      k := k + 1;
    }
    assert items[..k] == items;
    built := Some(acc);
  }

  /** The seen-set loop of fetch_cheapest: first record of each (departure_at, flight_number). */
  method FirstPerDepartureFlight(sorted: seq<FlightRecord>) returns (filtered: seq<FlightRecord>)
    ensures filtered == Dedup(sorted, DepartureFlightKey)
  {
    var seen: set<(string, string)> := {};
    filtered := [];
    var i := 0;
    while i < |sorted|
      invariant 0 <= i <= |sorted|
      invariant filtered == Dedup(sorted[..i], DepartureFlightKey)
      invariant seen == KeySet(filtered, DepartureFlightKey)
    {
      var x := sorted[i];
      assert sorted[..i + 1][..i] == sorted[..i] && sorted[..i + 1][i] == x;
      var key := (x.departureAt, x.flightNumber);
      if key !in seen {
        KeySetAppend(filtered, x, DepartureFlightKey);
        seen := seen + {key};
        filtered := filtered + [x];
      }
      i := i + 1;
    }
    assert sorted[..i] == sorted;
  }

  /**
   * fetch_cheapest. issued lists the queries sent, in order; result is None when building a
   * record raises (then the queries sent are a prefix of the plan), otherwise the ranked records.
   */
  method FetchCheapest(origin: string, dest: string, depDay: int, daysFlex: int, currency: string, marker: string,
                       provider: AvQuery -> AvResponse, ddmm: string -> Option<string>)
    returns (issued: seq<AvQuery>, result: Option<seq<FlightRecord>>)
    ensures issued <= Plan(origin, dest, depDay, daysFlex, currency)
    ensures result.Some? ==> issued == Plan(origin, dest, depDay, daysFlex, currency)
    ensures var h := Harvest(Plan(origin, dest, depDay, daysFlex, currency), provider, origin, dest, marker, ddmm);
            result == if h.None? then None else Some(Cheapest(h.value))
  {
    ghost var plan := Plan(origin, dest, depDay, daysFlex, currency);
    var results: seq<FlightRecord> := [];
    issued := [];
    var shift := -daysFlex;
    while shift < daysFlex + 1
      invariant -daysFlex <= shift && (daysFlex >= 0 ==> shift <= daysFlex + 1)
      invariant daysFlex < 0 ==> shift == -daysFlex
      invariant |issued| == if daysFlex < 0 then 0 else shift + daysFlex
      invariant issued == plan[..|issued|]
      invariant Harvest(issued, provider, origin, dest, marker, ddmm) == Some(results)
    {
      var q := AvQuery(origin, dest, depDay + shift, currency);
      assert plan[|issued|] == q;
      assert plan[..|issued| + 1] == issued + [q];
      ghost var prev := issued;
      issued := issued + [q];
      assert issued[..|issued| - 1] == prev;
      var r := provider(q);
      if r.status == 200 {
        var built := BuildResponseRecords(r.items, origin, dest, marker, ddmm);
        if built.None? {
          HarvestNoneStays(plan, |issued|, provider, origin, dest, marker, ddmm);
          return issued, None;
        }
        results := results + built.value;
      } else {
        assert results + [] == results;
      }
      shift := shift + 1;
    }
    assert issued == plan;
    var sorted := SortBy(results, RecordPriceKey);
    var filtered := FirstPerDepartureFlight(sorted);
    result := Some(filtered[..Min(10, |filtered|)]);
  }

  // ------------------------------------------------------------ properties of fetch_cheapest

  /**
   * At most ten offers, cheapest first (missing or zero prices last), one per
   * (departure_at, flight_number), each one a collected record, each the cheapest of its pair,
   * and every pair represented unless the cap of ten was reached.
   */
  lemma CheapestFacts(records: seq<FlightRecord>)
    ensures |Cheapest(records)| <= 10
    ensures SortedBy(Cheapest(records), RecordPriceKey)
    ensures UniqueBy(Cheapest(records), DepartureFlightKey)
    ensures forall j :: 0 <= j < |Cheapest(records)| ==> Cheapest(records)[j] in records
    ensures forall j, x :: 0 <= j < |Cheapest(records)| && x in records && DepartureFlightKey(x) == DepartureFlightKey(Cheapest(records)[j])
              ==> RecordPriceKey(Cheapest(records)[j]) <= RecordPriceKey(x)
    ensures |Cheapest(records)| < 10 ==> KeySet(Cheapest(records), DepartureFlightKey) == KeySet(records, DepartureFlightKey)
  {
    RankedFacts(records, RecordPriceKey, DepartureFlightKey, 10);
    forall j, x | 0 <= j < |Cheapest(records)| && x in records && DepartureFlightKey(x) == DepartureFlightKey(Cheapest(records)[j])
      ensures RecordPriceKey(Cheapest(records)[j]) <= RecordPriceKey(x)
    {
      RankedKeepsSmallest(records, RecordPriceKey, DepartureFlightKey, 10, j, x);
    }
  }

  /** Every record of a response carries the searched route and a purchase link for it. */
  ghost predicate ForRoute(x: FlightRecord, origin: string, dest: string, marker: string) {
    x.origin == origin && x.destination == dest
    && exists dm: string :: x.link == SearchLink(origin, dest, dm, marker)
  }

  lemma {:induction false} BuildAllForRoute(items: seq<AvItem>, origin: string, dest: string, marker: string, ddmm: string -> Option<string>)
    requires BuildAll(items, origin, dest, marker, ddmm).Some?
    ensures |BuildAll(items, origin, dest, marker, ddmm).value| == |items|
    ensures forall x :: x in BuildAll(items, origin, dest, marker, ddmm).value ==> ForRoute(x, origin, dest, marker)
    decreases |items|
  {
    if items != [] {
      var it := items[|items| - 1];
      BuildAllForRoute(items[..|items| - 1], origin, dest, marker, ddmm);
      var x := BuildRecord(it, origin, dest, marker, ddmm).value;
      assert ForRoute(x, origin, dest, marker) by {
        assert x.link == SearchLink(origin, dest, ddmm(it.departureAt.value).value, marker);
      }
    }
  }

  lemma {:induction false} HarvestForRoute(plan: seq<AvQuery>, provider: AvQuery -> AvResponse, origin: string, dest: string,
                                           marker: string, ddmm: string -> Option<string>)
    requires Harvest(plan, provider, origin, dest, marker, ddmm).Some?
    ensures forall x :: x in Harvest(plan, provider, origin, dest, marker, ddmm).value ==> ForRoute(x, origin, dest, marker)
    decreases |plan|
  {
    if plan != [] {
      HarvestForRoute(plan[..|plan| - 1], provider, origin, dest, marker, ddmm);
      var resp := provider(plan[|plan| - 1]);
      if resp.status == 200 {
        BuildAllForRoute(resp.items, origin, dest, marker, ddmm);
      }
    }
  }

  /** Every offer fetch_cheapest returns is for the requested route and links to its search. */
  lemma FetchCheapestForRoute(origin: string, dest: string, depDay: int, daysFlex: int, currency: string, marker: string,
                              provider: AvQuery -> AvResponse, ddmm: string -> Option<string>)
    requires Harvest(Plan(origin, dest, depDay, daysFlex, currency), provider, origin, dest, marker, ddmm).Some?
    ensures var rs := Harvest(Plan(origin, dest, depDay, daysFlex, currency), provider, origin, dest, marker, ddmm).value;
            forall x :: x in Cheapest(rs) ==> ForRoute(x, origin, dest, marker)
  {
    var rs := Harvest(Plan(origin, dest, depDay, daysFlex, currency), provider, origin, dest, marker, ddmm).value;
    HarvestForRoute(Plan(origin, dest, depDay, daysFlex, currency), provider, origin, dest, marker, ddmm);
    CheapestFacts(rs);
    forall x | x in Cheapest(rs) ensures ForRoute(x, origin, dest, marker) {
      var j :| 0 <= j < |Cheapest(rs)| && Cheapest(rs)[j] == x;
    }
  }

  /** When no response has status 200, nothing is collected. */
  lemma {:induction false} HarvestAllFailed(plan: seq<AvQuery>, provider: AvQuery -> AvResponse, origin: string, dest: string,
                                            marker: string, ddmm: string -> Option<string>)
    requires forall k :: 0 <= k < |plan| ==> provider(plan[k]).status != 200
    ensures Harvest(plan, provider, origin, dest, marker, ddmm) == Some([])
    decreases |plan|
  {
    if plan != [] {
      HarvestAllFailed(plan[..|plan| - 1], provider, origin, dest, marker, ddmm);
      assert RecordsOf(provider(plan[|plan| - 1]), origin, dest, marker, ddmm) == Some([]);
      var none: seq<FlightRecord> := [];
      assert none + none == none;
    }
  }

  /**
   * When every day's response is a 200 with one well-formed item, one record per day is
   * collected: 2 * days_flex + 1 before deduplication (seven for the bot's flex of three).
   */
  lemma {:induction false} HarvestOnePerDay(plan: seq<AvQuery>, provider: AvQuery -> AvResponse, origin: string, dest: string,
                                            marker: string, ddmm: string -> Option<string>)
    requires forall k :: 0 <= k < |plan| ==> provider(plan[k]).status == 200 && |provider(plan[k]).items| == 1
    requires forall k :: 0 <= k < |plan| ==> BuildRecord(provider(plan[k]).items[0], origin, dest, marker, ddmm).Some?
    ensures Harvest(plan, provider, origin, dest, marker, ddmm).Some?
    ensures |Harvest(plan, provider, origin, dest, marker, ddmm).value| == |plan|
    decreases |plan|
  {
    if plan != [] {
      HarvestOnePerDay(plan[..|plan| - 1], provider, origin, dest, marker, ddmm);
      var items := provider(plan[|plan| - 1]).items;
      assert items[..|items| - 1] == [] && items[|items| - 1] == items[0];
      assert BuildAll(items[..|items| - 1], origin, dest, marker, ddmm) == Some([]);
      var x := BuildRecord(items[0], origin, dest, marker, ddmm).value;
      assert [] + [x] == [x];
      assert BuildAll(items, origin, dest, marker, ddmm) == Some([x]);
      assert RecordsOf(provider(plan[|plan| - 1]), origin, dest, marker, ddmm) == Some([x]);
    }
  }
}
