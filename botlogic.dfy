/**
 * The search flow of bot_logic.py: the per-user dict USER_STATE written by set_origin and
 * set_dest_group, and run_search, which checks the session, finds the destination group,
 * fetches the cheapest offers of every airport code of the group, ranks the pool by price,
 * shows three offers free and gates up to seven more behind a service-fee invoice.
 */
module BotLogic {
  import opened Wrappers
  import opened Text
  import opened Dates
  import opened Ranking
  import opened Aviasales

  /** A destination group: the city name shown, and its airport codes. */
  datatype DestGroup = DestGroup(city: string, codes: seq<string>)

  const RuDests: seq<DestGroup> := [
    DestGroup("Москва (все аэропорты)", ["SVO", "DME", "VKO"]),
    DestGroup("Санкт-Петербург (LED)", ["LED"])]

  const UaeDests: seq<DestGroup> := [
    DestGroup("Дубай (DXB/DWC)", ["DXB", "DWC"]),
    DestGroup("Шарджа (SHJ)", ["SHJ"])]

  const TrDests: seq<DestGroup> := [
    DestGroup("Стамбул (IST/SAW)", ["IST", "SAW"]),
    DestGroup("Анкара (ESB)", ["ESB"])]

  /** The search widens the requested date by three days either way. */
  const DaysFlex: int := 3

  const FreeCount: int := 3
  const ShownCount: int := 10
  const FallbackPayLink: string := "https://example.com/pay"

  /** RU_DESTS for "ru", UAE_DESTS for "uae", TR_DESTS for every other tag. */
  function DestGroupsFor(tag: string): (gs: seq<DestGroup>)
    ensures tag == "ru" ==> gs == RuDests
    ensures tag == "uae" ==> gs == UaeDests
    ensures tag != "ru" && tag != "uae" ==> gs == TrDests
  {
    if tag == "ru" then RuDests else if tag == "uae" then UaeDests else TrDests
  }

  /** The position of the first group of that city; |groups| when there is none. */
  function FirstCity(groups: seq<DestGroup>, name: string): (k: nat)
    ensures k <= |groups|
    ensures k < |groups| ==> groups[k].city == name
    ensures forall k' :: 0 <= k' < k ==> groups[k'].city != name
  {
    if groups == [] then 0
    else if groups[0].city == name then 0
    else 1 + FirstCity(groups[1..], name)
  }

  /** next((g for g in groups if g["city"] == name), None) */
  function FindGroup(groups: seq<DestGroup>, name: string): Option<DestGroup> {
    var k := FirstCity(groups, name);
    if k < |groups| then Some(groups[k]) else None
  }

  /** The group found is the first of that city; there is none exactly when no city matches. */
  lemma FindGroupFirst(groups: seq<DestGroup>, name: string)
    ensures FindGroup(groups, name).None? <==> forall k :: 0 <= k < |groups| ==> groups[k].city != name
    ensures FindGroup(groups, name).Some? ==>
              exists k :: 0 <= k < |groups| && groups[k] == FindGroup(groups, name).value && groups[k].city == name
                          && forall k' :: 0 <= k' < k ==> groups[k'].city != name
  {
    var k := FirstCity(groups, name);
    if k < |groups| {
      assert groups[k] == FindGroup(groups, name).value;
    }
  }

  // ------------------------------------------------------------ format_card

  /** The transfers part of format_card: 0 reads "без пересадок", n reads "<n> перес.". */
  function TransfersText(transfers: int): (t: string)
    ensures t == "без пересадок" <==> transfers == 0
  {
    assert transfers != 0 ==> (IntToString(transfers) + " перес.")[0] != "без пересадок"[0];
    if transfers == 0 then "без пересадок" else IntToString(transfers) + " перес."
  }

  /** Reads the number of transfers back from the text. */
  function ParseTransfers(t: string): Option<int> {
    if t == "без пересадок" then Some(0)
    else match DropSuffix(" перес.", t)
      case None => None
      case Some(n) => ParseInt(n)
  }

  lemma TransfersTextRoundTrip(transfers: int)
    ensures ParseTransfers(TransfersText(transfers)) == Some(transfers)
  {
    if transfers != 0 {
      DropSuffixConcat(" перес.", IntToString(transfers));
      ParseIntToString(transfers);
    }
  }

  // ------------------------------------------------------------ run_search as functions

  /** What fetch_cheapest returns for one destination code; None when it raises. */
  function CheapestFor(origin: string, dest: string, depDay: int, currency: string, marker: string,
                       provider: AvQuery -> AvResponse, ddmm: string -> Option<string>): Option<seq<FlightRecord>> {
    var h := Harvest(Plan(origin, dest, depDay, DaysFlex, currency), provider, origin, dest, marker, ddmm);
    if h.None? then None else Some(Cheapest(h.value))
  }

  /** for o in offs: o["destination"] = dest */
  function TagDestination(offs: seq<FlightRecord>, dest: string): (r: seq<FlightRecord>)
    ensures |r| == |offs|
    ensures forall i :: 0 <= i < |r| ==> r[i] == offs[i].(destination := dest)
  {
    seq(|offs|, i requires 0 <= i < |offs| => offs[i].(destination := dest))
  }

  /** all_offers over the codes in group order; None once a fetch raises. */
  function Collected(codes: seq<string>, origin: string, depDay: int, currency: string, marker: string,
                     provider: AvQuery -> AvResponse, ddmm: string -> Option<string>): Option<seq<FlightRecord>> {
    if codes == [] then Some([])
    else match Collected(codes[..|codes| - 1], origin, depDay, currency, marker, provider, ddmm)
      case None => None
      case Some(rs) =>
        match CheapestFor(origin, codes[|codes| - 1], depDay, currency, marker, provider, ddmm)
        case None => None
        case Some(offs) => Some(rs + TagDestination(offs, codes[|codes| - 1]))
  }

  /** The queries of the whole search: each code's flex window, codes in group order. */
  function AllPlans(codes: seq<string>, origin: string, depDay: int, currency: string): seq<AvQuery> {
    if codes == [] then []
    else AllPlans(codes[..|codes| - 1], origin, depDay, currency) + Plan(origin, codes[|codes| - 1], depDay, DaysFlex, currency)
  }

  /** inv.get("pay_link", "https://example.com/pay") */
  function PayLink(inv: map<string, string>): (link: string)
    ensures "pay_link" in inv ==> link == inv["pay_link"]
    ensures "pay_link" !in inv ==> link == FallbackPayLink
    ensures link in inv.Values || link == FallbackPayLink
  {
    if "pay_link" in inv then inv["pay_link"] else FallbackPayLink
  }

  /** create_service_fee_invoice: the payments stub returns the same dict for every order. */
  function StubInvoice(orderId: int): map<string, string> {
    map["status" := "disabled", "message" := "Payme integration is disabled on this server", "pay_url" := ""]
  }

  /** With the stub the key "pay_link" is never there: every invoice link is the placeholder. */
  lemma StubInvoiceFallsBack(orderId: int)
    ensures PayLink(StubInvoice(orderId)) == FallbackPayLink
  {
    assert "pay_link" !in StubInvoice(orderId);
  }

  datatype SearchOutcome =
    | MissingData                                                   // "Не хватает данных запроса. Запусти заново: /start"
    | UnknownGroup                                                  // "Не удалось определить направление. /start"
    | BadDate                                                       // strptime raises ValueError
    | FetchRaised                                                   // fetch_cheapest raises
    | NothingFound                                                  // "Ничего не нашлось..."
    | Offers(free: seq<FlightRecord>, paid: seq<FlightRecord>, payLink: Option<string>)

  /** all_offers[3:10] */
  function PaidSlice(sorted: seq<FlightRecord>): seq<FlightRecord> {
    sorted[Min(FreeCount, |sorted|)..Min(ShownCount, |sorted|)]
  }

  /** The reply for a non-empty pool: sorted by `price or 9e12`, three free, the next seven paid. */
  function OffersReply(pool: seq<FlightRecord>, invoice: map<string, string>): SearchOutcome {
    var sorted := SortBy(pool, RecordPriceKey);
    var paid := PaidSlice(sorted);
    Offers(Take(sorted, FreeCount), paid, if paid != [] then Some(PayLink(invoice)) else None)
  }

  /** The stored session: USER_STATE[uid] with the keys run_search reads. */
  datatype BotEntry = BotEntry(tag: Option<string>, origin: Option<string>, destGroup: Option<string>)

  const EmptyEntry: BotEntry := BotEntry(None, None, None)

  predicate Present(v: Option<string>) { v.Some? && v.value != "" }

  lemma {:induction false} CollectedNoneStays(codes: seq<string>, n: nat, origin: string, depDay: int, currency: string, marker: string,
                                              provider: AvQuery -> AvResponse, ddmm: string -> Option<string>)
    requires n <= |codes| && Collected(codes[..n], origin, depDay, currency, marker, provider, ddmm).None?
    ensures Collected(codes, origin, depDay, currency, marker, provider, ddmm).None?
    decreases |codes| - n
  {
    if n < |codes| {
      assert codes[..n + 1][..n] == codes[..n];
      CollectedNoneStays(codes, n + 1, origin, depDay, currency, marker, provider, ddmm);
    } else {
      assert codes[..n] == codes;
    }
  }

  lemma {:induction false} AllPlansPrefix(codes: seq<string>, n: nat, origin: string, depDay: int, currency: string)
    requires n <= |codes|
    ensures AllPlans(codes[..n], origin, depDay, currency) <= AllPlans(codes, origin, depDay, currency)
    decreases |codes| - n
  {
    if n < |codes| {
      assert codes[..n + 1][..n] == codes[..n];
      AllPlansPrefix(codes, n + 1, origin, depDay, currency);
    } else {
      assert codes[..n] == codes;
    }
  }

  /** for o in offs: o["destination"] = dest */
  method TagOffers(offs: seq<FlightRecord>, dest: string) returns (tagged: seq<FlightRecord>)
    ensures tagged == TagDestination(offs, dest)
  {
    tagged := offs;
    for i := 0 to |tagged|
      invariant |tagged| == |offs|
      invariant forall j :: 0 <= j < |tagged| ==> tagged[j] == (if j < i then offs[j].(destination := dest) else offs[j])
    {
      tagged := tagged[i := tagged[i].(destination := dest)];
    }
  }

  /**
   * The loop over the group's codes: fetch_cheapest for each in order, every offer tagged with
   * its code, all collected into one pool; a fetch that raises ends the search.
   */
  method CollectGroup(origin: string, codes: seq<string>, depDay: int, currency: string, marker: string,
                      provider: AvQuery -> AvResponse, ddmm: string -> Option<string>)
    returns (issued: seq<AvQuery>, all: Option<seq<FlightRecord>>)
    ensures all == Collected(codes, origin, depDay, currency, marker, provider, ddmm)
    ensures issued <= AllPlans(codes, origin, depDay, currency)
    ensures all.Some? ==> issued == AllPlans(codes, origin, depDay, currency)
  {
    issued := [];
    var allOffers: seq<FlightRecord> := [];
    for k := 0 to |codes|
      invariant issued == AllPlans(codes[..k], origin, depDay, currency)
      invariant Collected(codes[..k], origin, depDay, currency, marker, provider, ddmm) == Some(allOffers)
    {
      var dest := codes[k];
      assert codes[..k + 1][..k] == codes[..k] && codes[..k + 1][k] == dest;
      var sent, offs := FetchCheapest(origin, dest, depDay, DaysFlex, currency, marker, provider, ddmm);
      issued := issued + sent;
      if offs.None? {
        CollectedNoneStays(codes, k + 1, origin, depDay, currency, marker, provider, ddmm);
        AllPlansPrefix(codes, k + 1, origin, depDay, currency);
        return issued, None;
      }
      var tagged := TagOffers(offs.value, dest);
      allOffers := allOffers + tagged;
    }
    assert codes[..|codes|] == codes;
    all := Some(allOffers);
  }

  /** The reply once the pool is known: the split and, when there are paid offers, one invoice. */
  method Reply(pool: seq<FlightRecord>, uid: int, invoice: int -> map<string, string>) returns (out: SearchOutcome)
    ensures pool == [] ==> out == NothingFound
    ensures pool != [] ==> out == OffersReply(pool, invoice(uid))
  {
    if pool == [] {
      return NothingFound;
    }
    var sorted := SortBy(pool, RecordPriceKey);
    var free := Take(sorted, FreeCount);
    var paid := PaidSlice(sorted);
    var payLink: Option<string> := None;
    if paid != [] {
      var inv := invoice(uid);
      payLink := Some(PayLink(inv));
    }
    out := Offers(free, paid, payLink);
  }

  class BotSessions {
    /** USER_STATE */
    var userState: map<int, BotEntry>

    constructor ()
      ensures userState == map[]
    {
      userState := map[];
    }

    /** set_origin: writes tag and origin into the (possibly new) entry, nothing else. */
    method SetOrigin(uid: int, tag: string, iata: string)
      modifies this
      ensures var e := if uid in old(userState) then old(userState)[uid] else EmptyEntry;
              userState == old(userState)[uid := e.(tag := Some(tag), origin := Some(iata))]
    {
      var st := if uid in userState then userState[uid] else EmptyEntry;
      st := st.(tag := Some(tag), origin := Some(iata));
      userState := userState[uid := st];
    }

    /** set_dest_group: writes tag and dest_group into the (possibly new) entry, nothing else. */
    method SetDestGroup(uid: int, tag: string, name: string)
      modifies this
      ensures var e := if uid in old(userState) then old(userState)[uid] else EmptyEntry;
              userState == old(userState)[uid := e.(tag := Some(tag), destGroup := Some(name))]
    {
      var st := if uid in userState then userState[uid] else EmptyEntry;
      st := st.(tag := Some(tag), destGroup := Some(name));
      userState := userState[uid := st];
    }

    /**
     * run_search. The session needs origin, tag and dest_group; the group must exist for the
     * tag; the date must parse; then every code of the group is searched in order.
     * issued lists the provider queries sent.
     */
    method RunSearch(uid: int, depStr: string, currency: string, marker: string,
                     provider: AvQuery -> AvResponse, ddmm: string -> Option<string>, invoice: int -> map<string, string>)
      returns (issued: seq<AvQuery>, out: SearchOutcome)
      ensures var e := if uid in userState then userState[uid] else EmptyEntry;
        if !(Present(e.origin) && Present(e.tag) && Present(e.destGroup)) then out == MissingData && issued == []
        else
          var grp := FindGroup(DestGroupsFor(e.tag.value), e.destGroup.value);
          if grp.None? then out == UnknownGroup && issued == []
          else if ParseDate(depStr).None? then out == BadDate && issued == []
          else
            var depDay := Ordinal(ParseDate(depStr).value);
            var all := Collected(grp.value.codes, e.origin.value, depDay, currency, marker, provider, ddmm);
            && issued <= AllPlans(grp.value.codes, e.origin.value, depDay, currency)
            && (all.None? ==> out == FetchRaised)
            && (all.Some? ==> issued == AllPlans(grp.value.codes, e.origin.value, depDay, currency))
            && (all.Some? && all.value == [] ==> out == NothingFound)
            && (all.Some? && all.value != [] ==> out == OffersReply(all.value, invoice(uid)))
    {
      issued := [];
      var st := if uid in userState then userState[uid] else EmptyEntry;
      if !(Present(st.origin) && Present(st.tag) && Present(st.destGroup)) {
        return issued, MissingData;
      }
      var origin := st.origin.value;
      var grp := FindGroup(DestGroupsFor(st.tag.value), st.destGroup.value);
      if grp.None? {
        return issued, UnknownGroup;
      }
      var dep := ParseDate(depStr);
      if dep.None? {
        return issued, BadDate;
      }
      var depDay := Ordinal(dep.value);
      var all;
      issued, all := CollectGroup(origin, grp.value.codes, depDay, currency, marker, provider, ddmm);
      if all.None? {
        return issued, FetchRaised;
      }
      out := Reply(all.value, uid, invoice);
    }
  }

  // ------------------------------------------------------------ properties of the reply

  /**
   * The free offers are the first min(n, 3) of the sorted pool and the paid ones the next
   * up to seven: together the ten cheapest, the free ones never dearer than a paid one;
   * an invoice link is attached exactly when there are paid offers, i.e. more than three.
   */
  lemma OffersSplit(pool: seq<FlightRecord>, invoice: map<string, string>)
    requires pool != []
    ensures var r := OffersReply(pool, invoice);
            var sorted := SortBy(pool, RecordPriceKey);
            && r.Offers?
            && |r.free| == Min(|pool|, FreeCount) && |r.paid| <= ShownCount - FreeCount
            && r.free + r.paid == Take(sorted, ShownCount)
            && (forall f, p :: 0 <= f < |r.free| && 0 <= p < |r.paid| ==> RecordPriceKey(r.free[f]) <= RecordPriceKey(r.paid[p]))
            && (r.payLink.Some? <==> r.paid != [])
            && (r.paid != [] <==> |pool| > FreeCount)
            && (r.payLink.Some? ==> r.payLink.value == PayLink(invoice))
  {
    var sorted := SortBy(pool, RecordPriceKey);
    SortByPermutes(pool, RecordPriceKey);
    SortBySorted(pool, RecordPriceKey);
    var r := OffersReply(pool, invoice);
    var a, b := Min(FreeCount, |sorted|), Min(ShownCount, |sorted|);
    assert r.free == sorted[..a] && r.paid == sorted[a..b];
    assert sorted[..a] + sorted[a..b] == sorted[..b];
    forall f, p | 0 <= f < |r.free| && 0 <= p < |r.paid| ensures RecordPriceKey(r.free[f]) <= RecordPriceKey(r.paid[p]) {
      assert r.free[f] == sorted[f] && r.paid[p] == sorted[a + p];
    }
  }

  /** Every offer collected for a group carries one of the group's codes as its destination. */
  lemma {:induction false} CollectedDestinations(codes: seq<string>, origin: string, depDay: int, currency: string, marker: string,
                                                 provider: AvQuery -> AvResponse, ddmm: string -> Option<string>)
    requires Collected(codes, origin, depDay, currency, marker, provider, ddmm).Some?
    ensures forall x :: x in Collected(codes, origin, depDay, currency, marker, provider, ddmm).value ==> x.destination in codes
    decreases |codes|
  {
    if codes != [] {
      var init := codes[..|codes| - 1];
      CollectedDestinations(init, origin, depDay, currency, marker, provider, ddmm);
      forall x | x in Collected(init, origin, depDay, currency, marker, provider, ddmm).value ensures x.destination in codes {
        assert x.destination in init;
      }
    }
  }

  /** Every offer of the reply, free or paid, is for one of the group's codes. */
  lemma OffersForGroup(codes: seq<string>, origin: string, depDay: int, currency: string, marker: string,
                       provider: AvQuery -> AvResponse, ddmm: string -> Option<string>, invoice: map<string, string>)
    requires Collected(codes, origin, depDay, currency, marker, provider, ddmm).Some?
    requires Collected(codes, origin, depDay, currency, marker, provider, ddmm).value != []
    ensures var r := OffersReply(Collected(codes, origin, depDay, currency, marker, provider, ddmm).value, invoice);
            forall x :: x in r.free + r.paid ==> x.destination in codes
  {
    var pool := Collected(codes, origin, depDay, currency, marker, provider, ddmm).value;
    CollectedDestinations(codes, origin, depDay, currency, marker, provider, ddmm);
    OffersSplit(pool, invoice);
    var sorted := SortBy(pool, RecordPriceKey);
    SortByPermutes(pool, RecordPriceKey);
    var r := OffersReply(pool, invoice);
    forall x | x in r.free + r.paid ensures x.destination in codes {
      assert x in sorted;
      assert x in multiset(pool);
    }
  }
}
