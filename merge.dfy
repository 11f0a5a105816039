/**
 * merge_results of main.py: the provider lists are concatenated in argument order, every
 * item is normalised (field aliases, digit-string prices made integers), the pool is
 * stable-sorted by an integer price key with a 10**12 sentinel for non-integers, and the
 * first record of each (airline, departure_at) pair is kept until the limit is reached.
 */
module Merge {
  import opened Wrappers
  import opened Text
  import opened Ranking

  /**
   * A JSON value as a price field can hold it. A float is known here only by whether it is
   * non-zero: its repr is never all digits and it is never an int.
   */
  datatype Raw = RNone | RBool(b: bool) | RInt(n: int) | RStr(s: string) | RFloat(nonZero: bool)

  /** Python truthiness, which decides `a or b`. */
  predicate Truthy(v: Raw) {
    match v
    case RNone => false
    case RBool(b) => b
    case RInt(n) => n != 0
    case RStr(s) => s != ""
    case RFloat(nz) => nz
  }

  /** str(v).isdigit(): str(None), str(True), a float's repr and a negative number all have a non-digit. */
  predicate StrIsDigits(v: Raw) {
    match v
    case RInt(n) => n >= 0
    case RStr(s) => IsDigits(s)
    case _ => false
  }

  /** An offer dict from a provider: the keys merge_results reads; None is a missing key or null. */
  datatype RawOffer = RawOffer(
    price: Raw,
    value: Raw,
    airline: Option<string>,
    gate: Option<string>,
    departureAt: Option<string>,
    departureAtIso: Option<string>,
    flightNumber: Option<string>,
    link: Option<string>,
    deeplink: Option<string>)

  datatype MergedOffer = MergedOffer(price: Raw, airline: string, link: string, departureAt: string, flightNumber: string)

  predicate Filled(v: Option<string>) { v.Some? && v.value != "" }

  /** `a or b or ""` over two string fields. */
  function FirstFilled(a: Option<string>, b: Option<string>): (r: string)
    ensures r != "" <==> Filled(a) || Filled(b)
    ensures Filled(a) ==> r == a.value
    ensures !Filled(a) && Filled(b) ==> r == b.value
  {
    if Filled(a) then a.value else if Filled(b) then b.value else ""
  }

  /** `price or value`, then int(...) when its string form is all digits. */
  function NormalPrice(price: Raw, value: Raw): (r: Raw)
    ensures Truthy(price) && !price.RStr? ==> r == price
    ensures !Truthy(price) && !value.RStr? ==> r == value
    ensures var p := if Truthy(price) then price else value;
            p.RStr? ==> r == (if IsDigits(p.s) then RInt(DigitsValue(p.s)) else p)
    ensures !(r.RStr? && IsDigits(r.s))
  {
    var p := if Truthy(price) then price else value;
    if !StrIsDigits(p) then p
    else if p.RStr? then RInt(DigitsValue(p.s))
    else p  // int() of a non-negative int is that int
  }

  /** One normalised record: each field is the first non-empty of its aliases, else "". */
  function Normalize(item: RawOffer): (r: MergedOffer)
    ensures !(r.price.RStr? && IsDigits(r.price.s))
    ensures Truthy(item.price) && !item.price.RStr? ==> r.price == item.price
    ensures r.airline != "" <==> Filled(item.airline) || Filled(item.gate)
    ensures Filled(item.airline) ==> r.airline == item.airline.value
    ensures !Filled(item.airline) && Filled(item.gate) ==> r.airline == item.gate.value
    ensures r.link != "" <==> Filled(item.link) || Filled(item.deeplink)
    ensures Filled(item.link) ==> r.link == item.link.value
    ensures !Filled(item.link) && Filled(item.deeplink) ==> r.link == item.deeplink.value
    ensures r.departureAt != "" <==> Filled(item.departureAt) || Filled(item.departureAtIso)
    ensures Filled(item.departureAt) ==> r.departureAt == item.departureAt.value
    ensures !Filled(item.departureAt) && Filled(item.departureAtIso) ==> r.departureAt == item.departureAtIso.value
    ensures r.flightNumber != "" <==> Filled(item.flightNumber)
    ensures Filled(item.flightNumber) ==> r.flightNumber == item.flightNumber.value
  {
    MergedOffer(
      NormalPrice(item.price, item.value),
      FirstFilled(item.airline, item.gate),
      FirstFilled(item.link, item.deeplink),
      FirstFilled(item.departureAt, item.departureAtIso),
      FirstFilled(item.flightNumber, None))
  }

  function NormalizeAll(pool: seq<RawOffer>): (r: seq<MergedOffer>)
    ensures |r| == |pool|
    ensures forall k :: 0 <= k < |pool| ==> r[k] == Normalize(pool[k])
  {
    seq(|pool|, k requires 0 <= k < |pool| => Normalize(pool[k]))
  }

  /** pool.extend(lst) for every list, in argument order. */
  function Concat(lists: seq<seq<RawOffer>>): (pool: seq<RawOffer>) {
    if lists == [] then [] else Concat(lists[..|lists| - 1]) + lists[|lists| - 1]
  }

  /** The 10**12 that every non-integer price sorts as. */
  const NonIntSentinel: int := 1_000_000_000_000

  /** The sort key: an int price (bool is an int subclass in Python), otherwise the sentinel. */
  function PriceKey(m: MergedOffer): (k: int)
    ensures m.price.RInt? ==> k == m.price.n
    ensures m.price.RBool? ==> k == (if m.price.b then 1 else 0)
    ensures !m.price.RInt? && !m.price.RBool? ==> k == NonIntSentinel
  {
    match m.price
    case RInt(n) => n
    case RBool(b) => if b then 1 else 0
    case _ => NonIntSentinel
  }

  function AirlineDepartureKey(m: MergedOffer): (string, string) { (m.airline, m.departureAt) }

  /** The merged list with at most limit records. */
  function Merged(lists: seq<seq<RawOffer>>, limit: int): (r: seq<MergedOffer>)
    ensures limit >= 0 ==> |r| <= limit
  {
    RankedFacts(NormalizeAll(Concat(lists)), PriceKey, AirlineDepartureKey, limit);
    Ranked(NormalizeAll(Concat(lists)), PriceKey, AirlineDepartureKey, limit)
  }

  /**
   * merge_results as written: the limit is compared only after a record has been appended,
   * so a limit below one still lets the first record through.
   */
  method MergeResults(lists: seq<seq<RawOffer>>, limit: int) returns (unique: seq<MergedOffer>)
    ensures unique == Merged(lists, Max(limit, 1))
  {
    var pool: seq<RawOffer> := [];
    for i := 0 to |lists|
      invariant pool == Concat(lists[..i])
    {
      assert lists[..i + 1][..i] == lists[..i];
      pool := pool + lists[i];
    }
    assert lists[..|lists|] == lists;
    var normalized: seq<MergedOffer> := [];
    for i := 0 to |pool|
      invariant normalized == NormalizeAll(pool[..i])
    {
      normalized := normalized + [Normalize(pool[i])];
    }
    assert pool[..|pool|] == pool;
    var sorted := SortBy(normalized, PriceKey);
    unique := FirstPerAirlineDeparture(sorted, limit);
  }

  /** The seen-set loop of merge_results, which breaks once len(unique) >= limit after an append. */
  method FirstPerAirlineDeparture(sorted: seq<MergedOffer>, limit: int) returns (unique: seq<MergedOffer>)
    ensures unique == Take(Dedup(sorted, AirlineDepartureKey), Max(limit, 1))
  {
    var cap := Max(limit, 1);
    var seen: set<(string, string)> := {};
    unique := [];
    var i := 0;
    while i < |sorted|
      invariant 0 <= i <= |sorted|
      invariant unique == Dedup(sorted[..i], AirlineDepartureKey) && |unique| < cap
      invariant seen == KeySet(unique, AirlineDepartureKey)
    {
      var n := sorted[i];
      assert sorted[..i + 1][..i] == sorted[..i] && sorted[..i + 1][i] == n;
      var k := (n.airline, n.departureAt);
      if k in seen {
        i := i + 1;
        continue;
      }
      KeySetAppend(unique, n, AirlineDepartureKey);
      seen := seen + {k};
      unique := unique + [n];
      if |unique| >= limit {
        DedupCapReached(sorted, AirlineDepartureKey, i + 1, cap);
        return;
      }
      i := i + 1;
    }
    assert sorted[..i] == sorted;
  }

  /** Once a prefix yields cap distinct records, they are the first cap of the whole. */
  lemma DedupCapReached<T, K>(s: seq<T>, dk: T -> K, n: nat, cap: int)
    requires n <= |s| && |Dedup(s[..n], dk)| == cap
    ensures Take(Dedup(s, dk), cap) == Dedup(s[..n], dk)
  {
    DedupPrefix(s, dk, n);
  }

  // ------------------------------------------------------------ properties

  /**
   * The merged list is sorted by price key, has one record per (airline, departure_at),
   * consists of normalised pool items, keeps the lowest-keyed record of each pair, and
   * misses no pair of the pool unless the limit was reached.
   */
  lemma MergedFacts(lists: seq<seq<RawOffer>>, limit: int)
    ensures SortedBy(Merged(lists, limit), PriceKey)
    ensures UniqueBy(Merged(lists, limit), AirlineDepartureKey)
    ensures |Merged(lists, limit)| <= |Concat(lists)|
    ensures forall j :: 0 <= j < |Merged(lists, limit)| ==>
              exists k :: 0 <= k < |Concat(lists)| && Normalize(Concat(lists)[k]) == Merged(lists, limit)[j]
    ensures forall j, k :: 0 <= j < |Merged(lists, limit)| && 0 <= k < |Concat(lists)|
              && AirlineDepartureKey(Normalize(Concat(lists)[k])) == AirlineDepartureKey(Merged(lists, limit)[j])
              ==> PriceKey(Merged(lists, limit)[j]) <= PriceKey(Normalize(Concat(lists)[k]))
    ensures |Merged(lists, limit)| < limit ==>
              KeySet(Merged(lists, limit), AirlineDepartureKey) == KeySet(NormalizeAll(Concat(lists)), AirlineDepartureKey)
  {
    var pool := Concat(lists);
    var s := NormalizeAll(pool);
    var r := Merged(lists, limit);
    RankedFacts(s, PriceKey, AirlineDepartureKey, limit);
    forall j | 0 <= j < |r| ensures exists k :: 0 <= k < |pool| && Normalize(pool[k]) == r[j] {
      assert r[j] in s;
      var k :| 0 <= k < |s| && s[k] == r[j];
      assert Normalize(pool[k]) == r[j];
    }
    forall j, k | 0 <= j < |r| && 0 <= k < |pool| && AirlineDepartureKey(Normalize(pool[k])) == AirlineDepartureKey(r[j])
      ensures PriceKey(r[j]) <= PriceKey(Normalize(pool[k]))
    {
      assert s[k] == Normalize(pool[k]);
      RankedKeepsSmallest(s, PriceKey, AirlineDepartureKey, limit, j, s[k]);
    }
  }

  /**
   * Ties keep pool order: two kept records with equal price keys are normalisations of
   * pool items in that order, so the first provider's offer comes first.
   */
  lemma MergedTiesKeepPoolOrder(lists: seq<seq<RawOffer>>, limit: int, i: int, j: int)
    requires 0 <= i < j < |Merged(lists, limit)|
    requires PriceKey(Merged(lists, limit)[i]) == PriceKey(Merged(lists, limit)[j])
    ensures exists p, q :: 0 <= p < q < |Concat(lists)|
              && Normalize(Concat(lists)[p]) == Merged(lists, limit)[i] && Normalize(Concat(lists)[q]) == Merged(lists, limit)[j]
  {
    var s := NormalizeAll(Concat(lists));
    RankedTieOrder(s, PriceKey, AirlineDepartureKey, limit, i, j);
    var p, q :| 0 <= p < q < |s| && s[p] == Merged(lists, limit)[i] && s[q] == Merged(lists, limit)[j];
    assert Normalize(Concat(lists)[p]) == s[p] && Normalize(Concat(lists)[q]) == s[q];
  }

  /** The pool of two lists is the first list followed by the second (tp before avs at the call site). */
  lemma ConcatTwo(tp: seq<RawOffer>, avs: seq<RawOffer>)
    ensures Concat([tp, avs]) == tp + avs
  {
    assert [tp, avs][..1] == [tp];
    assert [tp][..0] == [];
    assert Concat([tp]) == Concat([]) + tp == tp;
  }

  /**
   * The record kept for an (airline, departure_at) pair comes before, in pool order, every
   * other pool record of that pair with the same price key.
   */
  lemma MergedKeepsEarliestTie(lists: seq<seq<RawOffer>>, limit: int, j: int, k: int)
    requires 0 <= j < |Merged(lists, limit)| && 0 <= k < |Concat(lists)|
    requires Normalize(Concat(lists)[k]) != Merged(lists, limit)[j]
    requires AirlineDepartureKey(Normalize(Concat(lists)[k])) == AirlineDepartureKey(Merged(lists, limit)[j])
    requires PriceKey(Normalize(Concat(lists)[k])) == PriceKey(Merged(lists, limit)[j])
    ensures exists p, q :: 0 <= p < q < |Concat(lists)|
              && Normalize(Concat(lists)[p]) == Merged(lists, limit)[j] && Normalize(Concat(lists)[q]) == Normalize(Concat(lists)[k])
  {
    var s := NormalizeAll(Concat(lists));
    assert s[k] == Normalize(Concat(lists)[k]);
    RankedKeepsEarliestTie(s, PriceKey, AirlineDepartureKey, limit, j, s[k]);
    var p, q :| 0 <= p < q < |s| && s[p] == Merged(lists, limit)[j] && s[q] == s[k];
    assert Normalize(Concat(lists)[p]) == s[p] && Normalize(Concat(lists)[q]) == s[q];
  }

  /** A merged record written back as a dict with its own keys. */
  function AsRaw(m: MergedOffer): RawOffer {
    RawOffer(m.price, RNone, Some(m.airline), None, Some(m.departureAt), None, Some(m.flightNumber), Some(m.link), None)
  }

  /**
   * Normalisation is idempotent except where a falsy price was kept (then `price or value`
   * reads the missing value and the price becomes None).
   */
  lemma NormalizeIdempotent(item: RawOffer)
    requires Truthy(Normalize(item).price) || Normalize(item).price == RNone
    ensures Normalize(AsRaw(Normalize(item))) == Normalize(item)
  {
  }

  /** A falsy integer price read from "value" does not survive a second normalisation. */
  lemma NormalizeNotIdempotentOnZero()
    ensures var item := RawOffer(RNone, RInt(0), None, None, None, None, None, None, None);
            Normalize(item).price == RInt(0) && Normalize(AsRaw(Normalize(item))).price == RNone
  {
  }

  /** The limit-zero case of merge_results as written: one record comes back. */
  lemma MergeResultsLimitZeroKeepsOne(x: RawOffer)
    ensures |Merged([[x]], Max(0, 1))| == 1
  {
    assert Concat([[x]]) == [x] by {
      assert [[x]][..0] == [];
    }
    assert NormalizeAll([x]) == [Normalize(x)];
    RankedFacts(NormalizeAll([x]), PriceKey, AirlineDepartureKey, 1);
  }
}
