/**
 * The per-user bookkeeping of main.py's handlers. user_state maps a Telegram user id to
 * that user's QueryState; each handler reads or creates the entry and updates its fields.
 * The Telegram messages a handler sends are returned as values.
 */
module Sessions {
  import opened Wrappers
  import opened Dates
  import opened Ranking
  import opened Merge
  import opened State
  import opened Rendering
  import opened Calendar

  /** Result lists stay merged lists: sorted, one per (airline, departure_at), at most 40. */
  const ResultsLimit: int := 40

  /** What every stored QueryState satisfies between handler calls. */
  ghost predicate StateValid(q: QueryState) {
    q.results.Some? ==>
      && q.departDate.Some? && ValidDate(q.departDate.value)
      && |q.results.value| <= ResultsLimit
      && SortedBy(q.results.value, PriceKey)
      && UniqueBy(q.results.value, AirlineDepartureKey)
  }

  /** user_state.setdefault(uid, QueryState()), without the write. */
  function Entry(m: map<int, QueryState>, uid: int): QueryState {
    if uid in m then m[uid] else Fresh
  }

  /** The guard of res_more passes: a session with a route, a date and results. */
  predicate MoreAllowed(m: map<int, QueryState>, uid: int) {
    uid in m && Chosen(m[uid].origin) && Chosen(m[uid].destination) && m[uid].departDate.Some? && HasResults(m[uid])
  }

  /** The guard of buy_ticket passes: a session with results and idx below their count. */
  predicate BuyAccepted(m: map<int, QueryState>, uid: int, idx: int) {
    uid in m && HasResults(m[uid]) && idx < |m[uid].results.value|
  }

  /** Python's s[i], which also counts negative i from the end. */
  predicate InPyRange<T>(s: seq<T>, i: int) { -|s| <= i < |s| }

  function PyIndex<T>(s: seq<T>, i: int): T
    requires InPyRange(s, i)
  {
    if i < 0 then s[|s| + i] else s[i]
  }

  datatype MoreOutcome =
    | ChooseRouteFirst                                      // "Сначала выберите маршрут и дату"
    | NoMoreResults                                         // "Больше результатов нет"
    | MorePage(view: ResultsView, rows: seq<seq<Button>>)

  datatype BuyOutcome =
    | ItemNotFound                                          // "Элемент не найден"
    | Selected(number: int, offer: MergedOffer)             // "Вы выбрали вариант #<number>"
    | BuyIndexError                                         // results[idx] raises IndexError

  /** The purchase request sent to the managers' chat. */
  datatype Lead = Lead(
    origin: Option<string>,
    destination: Option<string>,
    date: Date,
    number: int,
    offer: MergedOffer,
    phone: string,
    username: string,
    fullName: string)

  datatype ContactOutcome =
    | ThanksOnly                                            // "Спасибо! Мы свяжемся с вами."
    | LeadCreated(lead: Lead, sentToManagers: bool)
    | ContactIndexError                                     // st.results[st.selected_idx] raises IndexError

  class Sessions {
    /** user_state */
    var userState: map<int, QueryState>

    ghost predicate Valid()
      reads this
    {
      forall uid :: uid in userState ==> StateValid(userState[uid])
    }

    constructor ()
      ensures Valid() && userState == map[]
    {
      userState := map[];
    }

    /** on_start and reset_flow: the user starts over from a fresh QueryState. */
    method OnStart(uid: int)
      requires Valid()
      modifies this
      ensures Valid()
      ensures userState == old(userState)[uid := Fresh]
    {
      userState := userState[uid := Fresh];
    }

    method ResetFlow(uid: int)
      requires Valid()
      modifies this
      ensures Valid()
      ensures userState == old(userState)[uid := Fresh]
    {
      userState := userState[uid := Fresh];
    }

    /** pick_origin: the origin code and city, on a possibly new entry; nothing else changes. */
    method PickOrigin(uid: int, iata: string, city: string)
      requires Valid()
      modifies this
      ensures Valid()
      ensures userState == old(userState)[uid := Entry(old(userState), uid).(origin := Some(iata), originLabel := Some(city))]
    {
      var st := Entry(userState, uid);
      st := st.(origin := Some(iata), originLabel := Some(city));
      userState := userState[uid := st];
    }

    /**
     * pick_dest: the destination code and city; the calendar then opens on CalendarStart(today)
     * (None when that raises, after the entry was written).
     */
    method PickDest(uid: int, iata: string, city: string, today: Date) returns (start: Option<Date>)
      requires Valid() && ValidDate(today)
      modifies this
      ensures Valid()
      ensures userState == old(userState)[uid := Entry(old(userState), uid).(destination := Some(iata), destinationLabel := Some(city))]
      ensures start == CalendarStart(today)
    {
      var st := Entry(userState, uid);
      st := st.(destination := Some(iata), destinationLabel := Some(city));
      userState := userState[uid := st];
      start := CalendarStart(today);
    }

    /** back_to_dest: only setdefault, which stores a fresh entry for an unknown user. */
    method BackToDest(uid: int) returns (exclude: Option<string>)
      requires Valid()
      modifies this
      ensures Valid()
      ensures userState == old(userState)[uid := Entry(old(userState), uid)]
      ensures exclude == Entry(old(userState), uid).origin
    {
      var st := Entry(userState, uid);
      userState := userState[uid := st];
      exclude := st.origin;
    }

    /**
     * cal_set: the chosen date with page 0, then the merge of the Travelpayouts and the
     * Aviasales lists, capped at 40; the first page and its keyboard are sent.
     */
    method CalSet(uid: int, chosen: Date, tp: seq<RawOffer>, avs: seq<RawOffer>) returns (view: ResultsView, rows: seq<seq<Button>>)
      requires Valid() && ValidDate(chosen)
      modifies this
      ensures Valid()
      ensures userState == old(userState)[uid := Entry(old(userState), uid).(departDate := Some(chosen), page := 0, results := Some(Merged([tp, avs], ResultsLimit)))]
      ensures view == BuildResultsText(userState[uid])
      ensures rows == KbRows(Visible(|Merged([tp, avs], ResultsLimit)|, 0), 0, HasMore(|Merged([tp, avs], ResultsLimit)|, 0))
    {
      var st := Entry(userState, uid);
      st := st.(departDate := Some(chosen), page := 0);
      userState := userState[uid := st];
      var merged := MergeResults([tp, avs], ResultsLimit);
      MergedFacts([tp, avs], ResultsLimit);
      st := st.(results := Some(merged));
      userState := userState[uid := st];
      view := BuildResultsText(st);
      var start := st.page * PageSize;
      var hasMore := |merged| > start + PageSize;
      rows := ResultsKb(Min(PageSize, |merged| - start), start, hasMore);
    }

    /**
     * res_more: without a route, a date and results nothing changes. Otherwise the page is
     * advanced even when the rebuilt text turns out to be the one already shown (sameAsShown).
     */
    method ResMore(uid: int, sameAsShown: bool) returns (out: MoreOutcome)
      requires Valid()
      modifies this
      ensures Valid()
      ensures !MoreAllowed(old(userState), uid) ==> out == ChooseRouteFirst && userState == old(userState)
      ensures MoreAllowed(old(userState), uid) ==>
        var q := old(userState)[uid].(page := old(userState)[uid].page + 1);
        var n := |q.results.value|;
        && userState == old(userState)[uid := q]
        && out == if sameAsShown then NoMoreResults
                  else MorePage(BuildResultsText(q), KbRows(Visible(n, q.page), q.page * PageSize, HasMore(n, q.page)))
    {
      if uid !in userState {
        return ChooseRouteFirst;
      }
      var st := userState[uid];
      if !Chosen(st.origin) || !Chosen(st.destination) || st.departDate.None? || !HasResults(st) {
        return ChooseRouteFirst;
      }
      st := st.(page := st.page + 1);
      userState := userState[uid := st];
      var view := BuildResultsText(st);
      if sameAsShown {
        return NoMoreResults;
      }
      var n := |st.results.value|;
      var start := st.page * PageSize;
      var hasMore := n > start + PageSize;
      var rows := ResultsKb(Min(PageSize, Max(0, n - start)), start, hasMore);
      out := MorePage(view, rows);
    }

    /**
     * buy_ticket: without results or with idx past the end nothing changes. Otherwise idx is
     * stored before the offer is read, so an idx below -len stores it and then raises.
     */
    method BuyTicket(uid: int, idx: int) returns (out: BuyOutcome)
      requires Valid()
      modifies this
      ensures Valid()
      ensures !BuyAccepted(old(userState), uid, idx) ==> out == ItemNotFound && userState == old(userState)
      ensures BuyAccepted(old(userState), uid, idx) ==>
        var rs := old(userState)[uid].results.value;
        && userState == old(userState)[uid := old(userState)[uid].(selectedIdx := Some(idx))]
        && out == if InPyRange(rs, idx) then Selected(idx + 1, PyIndex(rs, idx)) else BuyIndexError
    {
      if uid !in userState {
        return ItemNotFound;
      }
      var st := userState[uid];
      if !HasResults(st) || idx >= |st.results.value| {
        return ItemNotFound;
      }
      st := st.(selectedIdx := Some(idx));
      userState := userState[uid := st];
      var rs := st.results.value;
      if idx < -|rs| {
        return BuyIndexError;
      }
      out := Selected(idx + 1, PyIndex(rs, idx));
    }

    /**
     * got_contact: changes no state. Without a selection or results only thanks are sent;
     * otherwise a lead for the selected offer is built, and sent iff MANAGERS_CHAT_ID != 0.
     */
    method GotContact(uid: int, phone: string, username: Option<string>, fullName: string, managersChatId: int)
      returns (out: ContactOutcome)
      requires Valid()
      ensures uid !in userState || userState[uid].selectedIdx.None? || !HasResults(userState[uid]) ==> out == ThanksOnly
      ensures uid in userState && userState[uid].selectedIdx.Some? && HasResults(userState[uid]) ==>
        var q := userState[uid];
        var i := q.selectedIdx.value;
        if !InPyRange(q.results.value, i) then out == ContactIndexError
        else
          (&& out.LeadCreated?
           && out.lead == Lead(q.origin, q.destination, q.departDate.value, i + 1, PyIndex(q.results.value, i), phone,
                               if Chosen(username) then username.value else "-", fullName)
           && (out.sentToManagers <==> managersChatId != 0))
    {
      if uid !in userState {
        return ThanksOnly;
      }
      var st := userState[uid];
      if st.selectedIdx.None? || !HasResults(st) {
        return ThanksOnly;
      }
      var i := st.selectedIdx.value;
      var rs := st.results.value;
      if !(-|rs| <= i < |rs|) {
        return ContactIndexError;
      }
      var choice := PyIndex(rs, i);
      var user := if Chosen(username) then username.value else "-";
      var lead := Lead(st.origin, st.destination, st.departDate.value, i + 1, choice, phone, user, fullName);
      out := LeadCreated(lead, managersChatId != 0);
    }
  }

  /**
   * Every "Купить" button the bot shows is accepted by buy_ticket, without an IndexError, and
   * selects the offer shown under the button's number.
   */
  lemma ShownButtonsBuyShownOffers(m: map<int, QueryState>, uid: int, idx: int)
    requires uid in m && m[uid].departDate.Some? && HasResults(m[uid])
    requires var q := m[uid];
             var n := |q.results.value|;
             InRows(Buy(idx), KbRows(Visible(n, q.page), q.page * PageSize, HasMore(n, q.page)))
    ensures BuyAccepted(m, uid, idx) && 0 <= idx < |m[uid].results.value|
    ensures var body := BuildResultsText(m[uid]).body;
            body.Lines? && exists i :: 0 <= i < |body.lines| && body.lines[i] == ResultLine(idx + 1, m[uid].results.value[idx])
  {
    var q := m[uid];
    KeyboardMatchesPage(q);
    var body := BuildResultsText(q).body;
    var i :| 0 <= i < |body.lines| && body.lines[i].number == idx + 1;
    assert body.lines[i] == ResultLine(q.page * PageSize + i + 1, q.results.value[q.page * PageSize + i]);
  }
}
