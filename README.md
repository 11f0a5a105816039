# ArzonUching flight-search bot — a verified model of its core

ArzonUching is a Telegram bot that finds cheap flights from Uzbekistan. This project models
the logic in its three core modules and proves properties of that model in Dafny:

- `main.py` holds the per-user `QueryState` and the handlers that update it. It also holds the
  result merger, the results page and its keyboard, price formatting and the calendar weeks.
- `bot_logic.py` holds the search flow: the per-user dict written by `set_origin` and
  `set_dest_group`, and `run_search`, which searches every airport of a destination group and
  splits the ranked offers into three free and up to seven paid ones.
- `aviasales.py` holds the IATA validator, the Travelpayouts deeplink and price-search
  validation, and `fetch_cheapest`, which fans out over a ±days window, builds records with an
  affiliate link, ranks them by price and deduplicates them.

The modules are:

| module | file | models |
|---|---|---|
| `Wrappers` | wrappers.dfy | `Option`, `Result`, `Min`, `Max` |
| `Text` | text.dfy | `str.strip` (Python's whitespace set), ASCII `upper`/`isalpha`/`isdigit`, `str(n)`, `int(s)` |
| `Dates` | dates.dfy | `strptime(s, "%Y-%m-%d")` over ASCII digits, `isoformat`, `toordinal`, `+ timedelta(days=1)` |
| `Ranking` | ranking.dfy | `list.sort`/`sorted` as a stable insertion sort, the first-wins `seen`-set dedup loop, `[:n]` |
| `Aviasales` | aviasales.dfy | aviasales.py |
| `Merge` | merge.dfy | `merge_results` |
| `State` | state.dfy | `QueryState` |
| `Rendering` | rendering.dfy | `fmt_price`, `build_results_text`, the paging arithmetic, `results_kb` |
| `Calendar` | calendar.dfy | `month_days` and the month `pick_dest` opens |
| `Sessions` | sessions.dfy | the `user_state` handlers of main.py, as a class over `map<int, QueryState>` |
| `BotLogic` | botlogic.dfy | bot_logic.py |

Code that loops or mutates is modelled as imperative Dafny:
- `merge_results`, `month_days`, `results_kb` and `run_search`;
- the result loop and the `seen`-set loop of `fetch_cheapest`;
- the handlers.

Each such method is proved equal to a specification function, and the properties are proved as
lemmas about that function. The HTTP providers are functions from a query to a response.
`datetime.fromisoformat(...).strftime("%d%m")` is a function parameter `ddmm` whose `None`
stands for the exception. Today's date, the invoice service and the Telegram text comparison
of `res_more` are parameters too.

The model follows the code as written:
- Both rankers sort before they deduplicate, so the cheapest duplicate survives, not the first one seen.
- Normalisation is not idempotent: `Merge.NormalizeNotIdempotentOnZero` gives the input.
- `fetch_cheapest` can raise past its boundary, on an item without `departure_at`.
- `run_search` fetches the codes of a group one after another.

## Model

| member | source | states |
|---|---|---|
| `Text.Strip` | arzonuching/app/aviasales.py:18 | `code.strip()`: the result is a slice of the input with only whitespace outside it and no whitespace at either end |
| `Text.StripPadded` | arzonuching/app/aviasales.py:18 | strip of a word padded with whitespace returns the word |
| `Text.Upper` | arzonuching/app/aviasales.py:18 | `upper()` keeps the length and maps each character by ASCII case |
| `Dates.ParseDate` | arzonuching/app/aviasales.py:27-30 | `strptime(date, "%Y-%m-%d")` over ASCII digits: every date it accepts exists (year 1..9999, day within the month) |
| `Dates.ParseIsoFormat` | arzonuching/app/bot_logic.py:127-151 | what `strftime("%Y-%m-%d")` prints of a date, `strptime` accepts and returns as that date |
| `Dates.NextDay` | arzonuching/app/main.py:286 | `+ timedelta(days=1)` yields a valid date whose ordinal is one more |
| `Ranking.SortBySorted` | arzonuching/app/main.py:199 | the sort leaves the sequence non-decreasing by its key |
| `Ranking.SortByPermutes` | arzonuching/app/main.py:199 | the sort is a permutation of its input |
| `Ranking.SortByStable` | arzonuching/app/main.py:199 | for every key the elements with that key keep their relative order |
| `Ranking.SortByTieOrder` | arzonuching/app/bot_logic.py:166 | two sorted elements with equal keys come from occurrences in input order |
| `Ranking.DedupKeys` | arzonuching/app/main.py:200-207 | dedup output has pairwise distinct keys, the same key set as its input, and is no longer |
| `Ranking.DedupKeepsFirst` | arzonuching/app/main.py:200-207 | every kept element is the first occurrence of its key, kept in input order |
| `Ranking.DedupSorted` | arzonuching/app/aviasales.py:106-110 | dedup of a sorted sequence stays sorted |
| `Ranking.RankedFacts` | arzonuching/app/aviasales.py:105-110 | sort, dedup and cap give at most n elements, sorted, unique keys, all from the input, every key when under the cap |
| `Ranking.RankedKeepsSmallest` | arzonuching/app/main.py:199-207 | the kept element of a duplicate group has the smallest sort key in the group |
| `Ranking.RankedTieOrder` | arzonuching/app/main.py:199-207 | kept elements with equal sort keys appear in input order |
| `Ranking.RankedKeepsEarliestTie` | arzonuching/app/main.py:199-207 | of duplicates with equal sort key the kept one occurs before the discarded one |
| `Aviasales.EnsureIata` | arzonuching/app/aviasales.py:17-21 | succeeds iff the code is three ASCII letters padded only by whitespace, and then returns them upper-cased; otherwise fails naming the code |
| `Aviasales.EnsureIataIdempotent` | arzonuching/app/aviasales.py:17-21 | `ensure_iata` applied to its own output returns it unchanged |
| `Aviasales.TpDeeplink` | arzonuching/app/aviasales.py:55-62 | fails iff a code is invalid, the origin's error first; otherwise a link of the head, the two codes and the date |
| `Aviasales.DeeplinkRoundTrip` | arzonuching/app/aviasales.py:55-62 | the link parses back into the validated origin, destination and date |
| `Aviasales.DeeplinkInjective` | arzonuching/app/aviasales.py:55-62 | two equal links come from the same validated codes and date |
| `Aviasales.DeeplinkSubId` | arzonuching/app/aviasales.py:60-61 | a non-empty SUB_ID appends exactly `&sub_id=<SUB_ID>` to the link without it |
| `Aviasales.TpPricesQuery` | arzonuching/app/aviasales.py:23-40 | validation order origin, destination, date; the query carries the validated codes and limit 5 |
| `Aviasales.TpSearchPricesForDate` | arzonuching/app/aviasales.py:23-53 | a validation error is returned before any request; otherwise at most 5 items: none for a non-200 status or non-list data, else the first five |
| `Aviasales.TpSearchRejectsBeforeRequest` | arzonuching/app/aviasales.py:23-30 | a rejected search gives the same answer whatever the server would say |
| `Aviasales.Plan` | arzonuching/app/aviasales.py:71-81 | `2*days_flex+1` queries (none when negative), all for the route and currency, consecutive days from dep−flex to dep+flex |
| `Aviasales.BuildRecord` | arzonuching/app/aviasales.py:85-103 | a record exists iff `departure_at` is present and parses; it carries origin and dest, transfers defaulting to 0, flight number and airline to "", and the search link with ddmm and marker |
| `Aviasales.BuildResponseRecords` | arzonuching/app/aviasales.py:85-103 | the item loop builds the records of all items in order, or raises at the first bad item |
| `Aviasales.FirstPerDepartureFlight` | arzonuching/app/aviasales.py:106-109 | the `seen` loop is the first-wins dedup on (departure_at, flight_number) |
| `Aviasales.Harvest` | arzonuching/app/aviasales.py:71-103 | the shift loop yields records iff no response raises while building its records, and the last query's records come last |
| `Aviasales.PriceOrSentinel` | arzonuching/app/aviasales.py:106 | `price or 9e12`: a non-zero price is its own key, a missing or zero price is 9 * 10^12 |
| `Aviasales.RecordPriceKey` | arzonuching/app/aviasales.py:106 | the sort key of a record is its price unless that is missing or zero, then 9 * 10^12 |
| `Aviasales.FetchCheapest` | arzonuching/app/aviasales.py:67-110 | issues a prefix of the plan, all of it unless a response raises; returns the ranked harvest of the plan, or the exception |
| `Aviasales.CheapestFacts` | arzonuching/app/aviasales.py:105-110 | at most 10, sorted by `price or 9e12`, unique (departure_at, flight_number), each from the records, cheapest of its pair, every pair when under 10 |
| `Aviasales.FetchCheapestForRoute` | arzonuching/app/aviasales.py:86-103 | every returned record carries the given origin, dest and a link for that route and marker |
| `Aviasales.HarvestAllFailed` | arzonuching/app/aviasales.py:83 | when no response has status 200 the harvest is empty, not an error |
| `Aviasales.HarvestOnePerDay` | arzonuching/app/aviasales.py:71-103 | one good item per day gives exactly one record per query |
| `Merge.FirstFilled` | arzonuching/app/main.py:188-191 | `a or b or ""`: empty iff both are missing or empty, else the first non-empty |
| `Merge.Normalize` | arzonuching/app/main.py:186-198 | each field is the first non-empty of its aliases (airline or gate, link or deeplink, departure_at or departure_at_iso, flight_number), else ""; the price is never a digit string and a truthy non-string price is kept |
| `Merge.NormalPrice` | arzonuching/app/main.py:187-193 | `price or value`; a digit string becomes its integer, other values pass unchanged, no digit string survives |
| `Merge.PriceKey` | arzonuching/app/main.py:199 | an int price is its own key, True and False count as 1 and 0, any other value is 10**12 |
| `Merge.MergeResults` | arzonuching/app/main.py:181-210 | the three loops and the sort compute the merged list with limit `max(limit, 1)` |
| `Merge.FirstPerAirlineDeparture` | arzonuching/app/main.py:200-209 | the dedup loop with its break after the append is the first-wins dedup capped at `max(limit, 1)` |
| `Merge.Merged` | arzonuching/app/main.py:181-210 | a non-negative limit bounds the length |
| `Merge.MergedFacts` | arzonuching/app/main.py:181-210 | sorted by the price key (10**12 for non-ints), unique (airline, departure_at), no longer than the pool, each the normalisation of a pool item, cheapest of its pair, every pair when under the limit |
| `Merge.MergedTiesKeepPoolOrder` | arzonuching/app/main.py:182-199 | records with equal keys appear in pool order, i.e. argument-list order |
| `Merge.ConcatTwo` | arzonuching/app/main.py:182-184 | the pool of `merge_results(tp, avs)` is tp followed by avs |
| `Merge.MergedKeepsEarliestTie` | arzonuching/app/main.py:199-207 | a discarded duplicate with the kept one's price occurs later in the pool |
| `Merge.NormalizeIdempotent` | arzonuching/app/main.py:186-198 | normalising a merged record again changes nothing when its price is truthy or None |
| `Merge.NormalizeNotIdempotentOnZero` | arzonuching/app/main.py:187 | a zero price taken from "value" becomes None on a second normalisation |
| `Merge.MergeResultsLimitZeroKeepsOne` | arzonuching/app/main.py:206-208 | with limit 0 one record is still returned |
| `Rendering.FmtPrice` | arzonuching/app/main.py:216-219 | None gives "—"; a number ends with a space and the upper-cased currency, and a positive one does not start with 0 |
| `Rendering.Group3` | arzonuching/app/main.py:219 | `f"{v:,}".replace(",", " ")` of a digit string: one separator per three digits, with a space exactly at every fourth position from the right |
| `Rendering.FmtPriceRoundTrip` | arzonuching/app/main.py:216-219 | removing the group spaces and the currency from the text gives back the number |
| `Rendering.FmtPriceNoneIsNotAmount` | arzonuching/app/main.py:217-218 | the "—" of None reads back as no amount |
| `Rendering.Group3RemoveSpaces` | arzonuching/app/main.py:219 | the thousands grouping only inserts spaces between digits |
| `Rendering.Visible` | arzonuching/app/main.py:351 | a page shows at most five offers |
| `Rendering.Window` | arzonuching/app/main.py:232-233 | `results[start:start+5]` has `min(5, max(0, len - start))` elements, results from `start` on |
| `Rendering.BuildResultsText` | arzonuching/app/main.py:222-246 | no results iff the list is missing or empty; "all shown" iff there are results and none on this page; otherwise the window numbered from `page*5+1` |
| `Rendering.HasMoreIffNextPageShown` | arzonuching/app/main.py:349-350 | `has_more` holds iff the next page shows offer lines |
| `Rendering.PagesCover` | arzonuching/app/main.py:232-233 | the first k pages together show exactly the first `min(5k, len)` results |
| `Rendering.ResultsKb` | arzonuching/app/main.py:128-137 | the loop builds one buy row per visible index, then the navigation row |
| `Rendering.KbRowsButtons` | arzonuching/app/main.py:128-137 | `buy:idx` present iff `start <= idx < start+visible`; "Показать ещё" present iff `has_more`, then first; "Новый поиск" last |
| `Rendering.KeyboardMatchesPage` | arzonuching/app/main.py:348-351 | a buy button is present iff the page shows the line numbered idx+1, and then idx indexes the results |
| `Calendar.MonthDays` | arzonuching/app/main.py:83-96 | every row has 7 cells; the rows read in order are the days (0 as None) then only None padding; `ceil(n/7)` rows; day k sits at row k/7, column k%7 |
| `Calendar.PadRow` | arzonuching/app/main.py:92-94 | the last row is padded with None to length 7 |
| `Calendar.FirstOfNextMonth` | arzonuching/app/main.py:286 | `(d.replace(day=28) + 4 days).replace(day=1)` is the first of the next month; it is missing only in December 9999 |
| `Calendar.CalendarStart` | arzonuching/app/main.py:285-286 | today up to the 25th, else the first of next month, at most 6 days later |
| `Sessions.Sessions.OnStart` | arzonuching/app/main.py:256-262 | the user's state becomes a fresh QueryState, others unchanged |
| `Sessions.Sessions.ResetFlow` | arzonuching/app/main.py:429-433 | the user's state becomes a fresh QueryState, others unchanged |
| `Sessions.Sessions.PickOrigin` | arzonuching/app/main.py:265-276 | setdefault, then only origin and its label change |
| `Sessions.Sessions.PickDest` | arzonuching/app/main.py:279-292 | setdefault, then only destination and its label change; the calendar opens at `CalendarStart(today)` |
| `Sessions.Sessions.BackToDest` | arzonuching/app/main.py:418-426 | setdefault only; the origin is the excluded code |
| `Sessions.Sessions.CalSet` | arzonuching/app/main.py:311-334 | sets the date, page 0 and the merged results (limit 40), keeps the selection; shows page 0 and its keyboard |
| `Sessions.Sessions.ResMore` | arzonuching/app/main.py:337-353 | without a route, date and results nothing changes; otherwise the page advances even when "no more results" is answered; otherwise the next page and its keyboard |
| `Sessions.Sessions.BuyTicket` | arzonuching/app/main.py:356-363 | without results or with `idx >= len` nothing changes; otherwise `selected_idx := idx`, then Python indexing selects the offer or raises |
| `Sessions.Sessions.GotContact` | arzonuching/app/main.py:384-415 | no state change; thanks only without a selection or results; otherwise a lead for the selected offer, sent iff MANAGERS_CHAT_ID is set |
| `Sessions.ShownButtonsBuyShownOffers` | arzonuching/app/main.py:356-363 | every shown buy button passes buy_ticket's guard, indexes in range, and selects the offer on its line |
| `BotLogic.DestGroupsFor` | arzonuching/app/bot_logic.py:145 | "ru" selects RU_DESTS, "uae" UAE_DESTS, anything else TR_DESTS |
| `BotLogic.FirstCity` | arzonuching/app/bot_logic.py:146 | the position of the first group whose city equals the name, or the length when none does |
| `BotLogic.FindGroupFirst` | arzonuching/app/bot_logic.py:146-149 | no group iff no city matches; otherwise the first match |
| `BotLogic.TransfersText` | arzonuching/app/bot_logic.py:72 | "без пересадок" iff transfers is 0 |
| `BotLogic.TransfersTextRoundTrip` | arzonuching/app/bot_logic.py:72 | the number of transfers reads back from the text |
| `BotLogic.TagDestination` | arzonuching/app/bot_logic.py:159-160 | every offer gets `destination := dest` and nothing else changes |
| `BotLogic.TagOffers` | arzonuching/app/bot_logic.py:159-160 | the tagging loop computes that |
| `BotLogic.CollectGroup` | arzonuching/app/bot_logic.py:155-161 | the codes are fetched in group order and their tagged offers concatenated; the queries issued are a prefix of all plans, all of them unless a fetch raises |
| `BotLogic.Reply` | arzonuching/app/bot_logic.py:163-175 | an empty pool gives "nothing found" and no invoice; otherwise the split reply |
| `BotLogic.BotSessions.SetOrigin` | arzonuching/app/bot_logic.py:103-108 | setdefault, then only tag and origin change |
| `BotLogic.BotSessions.SetDestGroup` | arzonuching/app/bot_logic.py:111-115 | setdefault, then only tag and dest_group change |
| `BotLogic.BotSessions.RunSearch` | arzonuching/app/bot_logic.py:137-179 | missing data and an unknown group each reply without a search; a bad date raises (`BadDate`) before any reply or search; otherwise all codes are searched with days_flex 3 and the pool decides the reply |
| `BotLogic.PayLink` | arzonuching/app/bot_logic.py:175 | `inv.get("pay_link", ...)`: the invoice's pay_link when present, otherwise the placeholder; always one of the two |
| `BotLogic.StubInvoiceFallsBack` | arzonuching/app/bot_logic.py:174-175 | with the invoice stub the pay link is always the placeholder, since the stub has no "pay_link" |
| `BotLogic.OffersSplit` | arzonuching/app/bot_logic.py:166-175 | free is the first `min(n,3)`, paid at most 7, together the first `min(n,10)` of the sorted pool, no free offer dearer than a paid one; an invoice link iff paid is non-empty iff n > 3 |
| `BotLogic.CollectedDestinations` | arzonuching/app/bot_logic.py:157-161 | every collected offer's destination is one of the group's codes |
| `BotLogic.OffersForGroup` | arzonuching/app/bot_logic.py:157-168 | every offer shown, free or paid, is for one of the group's codes |

## Findings

| source | as written | input that shows it | evidently intended | confidence | as-written member | corrected member |
|---|---|---|---|---|---|---|
| arzonuching/app/main.py:206-208 | `unique.append(n)` comes before the `len(unique) >= limit` check, so the first record is always kept | `merge_results([offer], limit=0)` returns one record | at most `limit` records | low, not executed; callers pass 40 | `Merge.MergeResultsLimitZeroKeepsOne` | `Merge.Merged` |

`Merge.MergeResults` models the loop as written: it computes `Merged(lists, max(limit, 1))`.
`Merge.Merged` is the corrected function, and its contract bounds the length by a non-negative
limit. The session model stores `Merged([tp, avs], 40)`, which agrees with the code at that limit.

## Left out

- Telegram transport is not modelled: the bot and dispatcher, message sending and editing,
  button markup objects, the polling loop, and the message strings. The handlers return the
  outcome a message would report.
- The following handlers are not modelled, because they only send messages or keyboards:
  `start_cmd`, `pick_dir`, `set_date`, `manual_date`, `send_affiliate_on_any_text`,
  `cal_prev` and `cal_next`. The keyboard builders `route_keyboard`, `city_keyboard`,
  `date_keyboard`, `countries_kb` and `calendar_kb` are not modelled for the same reason.
  The dates that `set_date` computes from the clock are inputs of `RunSearch`.
- Callback data is not parsed in the model. Splitting it and `int(...)` on it are left out;
  the handlers receive the parsed values.
- HTTP is not modelled: aiohttp, requests, tokens, timeouts and the request logging.
  `fetch_travelpayouts` and `fetch_aviasales` are not modelled either; `CalSet` receives
  their two lists.
- Each provider is a deterministic function from query to response, and the response is
  always a status and a decoded body. A missing "data" key reads as an empty list. A
  `"data": null` or other non-iterable value in `fetch_cheapest` raises `TypeError` at
  aviasales.py:85, since there is no list check as at aviasales.py:51. A non-dict JSON
  body makes `.get` raise at aviasales.py:50 and aviasales.py:85. Neither is modelled.
- No network or JSON-decode exception is modelled. In the source these calls have no
  `try` and their exceptions propagate: `requests.get` and `r.json()` in
  `tp_search_prices_for_date` (aviasales.py:43, 50), `session.get` and `r.json()` in
  `fetch_cheapest` (aviasales.py:82-84), and the aiohttp call of `fetch_travelpayouts`
  (main.py:153-157).
- Sessions.Sessions.CalSet: the handlers are modelled as atomic and total. In the source,
  when `fetch_travelpayouts` raises, `cal_set` stops after writing `depart_date` and
  `page = 0` (main.py:316-317) and before writing `results` (main.py:329), so the old
  date's results stay under the new date. The handlers also await between these writes,
  so another handler such as `res_more` or `reset_flow` can run in between. Neither the
  raising path nor the partial update, nor that interleaving, is in the model.
- The `asyncio.gather` of `cal_set` is two values taken in a fixed order, the Travelpayouts
  list first.
- The clock is a parameter: `today` in `PickDest`. The dates `set_date` computes are inputs.
- `datetime.fromisoformat(...).strftime("%d%m")` is the `ddmm` function parameter; `None`
  means it raises. `format_card`'s `%d.%m %H:%M` and the `dt[:16]` display text are not modelled.
- `calendar.Calendar.itermonthdays` is not modelled; `MonthDays` receives its output.
- `str.upper`, `str.isalpha`, `str.isdigit` and the `\d` of `strptime`'s regular
  expressions are ASCII-only in the model; Python's are Unicode-wide. `EnsureIata`
  therefore rejects non-ASCII letters that Python accepts. `NormalPrice` does not model a
  Unicode digit string on which `int()` raises.
- Dates.ParseDate: rejects dates written with non-ASCII decimal digits. CPython compiles
  `%Y` and `%d` to `\d` patterns without `re.ASCII` and converts with `int()`, so a year
  in full-width digits such as "２０２５-11-05" passes `manual_date`'s filter
  (bot_logic.py:133) and `strptime` (bot_logic.py:151, aviasales.py:28) and is searched as
  2025-11-05, where the model answers with a bad date.
- Float prices in `merge_results` are kept only as whether they are non-zero, with no
  arithmetic. The `9e12` sentinel is the integer 9000000000000. Python compares an int
  with that float exactly.
- Aviasales.BuildRecord: the provider price of `fetch_cheapest` is an optional integer. A
  float or string price from the provider cannot be represented, so neither its sort key
  nor the `TypeError` of comparing a string with an int is modelled.
- `FmtPrice` covers only integer prices. `f"{v:,}"` of a float price, and the `ValueError`
  ("Cannot specify ',' with 's'.") on a string price, are not modelled.
- `null` and a missing key are not told apart for `transfers`, `flight_number` and
  `airline` (aviasales.py:88-89, 96). When the provider sends `null`, the source stores
  None where the model stores the default.
- Sessions.Sessions.ResMore: the comparison of the rebuilt HTML text with the message's
  plain text is a boolean parameter. Telegram returns `message.text` without the HTML tags,
  so in practice the two never compare equal.
- `CalSet` does not model `strftime("%d.%m.%Y")` of the date or the searches run with a
  missing origin or destination. Those searches are network calls.
- Aviasales.FetchCheapest: when a response raises, the contract states only that the
  queries issued are a prefix of the plan. It does not state how long that prefix is.
- Aviasales.Plan: counts days as ordinals. It does not model the `OverflowError` of
  `dep_date + timedelta(...)` beyond year 9999.
- payments.py is a stub returning a constant dict. `RunSearch` receives the invoice function
  as a parameter, and `BotLogic.StubInvoice` states what the stub returns.
- Configuration values are parameters or constants: TP_MARKER, LOCALE, CURRENCY, SUB_ID, the
  affiliate marker and MANAGERS_CHAT_ID.
- The `print` calls of `tp_search_prices_for_date`, and the `main()` polling entry points,
  are not modelled.
