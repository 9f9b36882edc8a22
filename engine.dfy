/**
 * The engine of main.py: group instrument records by curve key, build one
 * forward curve per key, and walk the curves in settlement-date order to get
 * the day-over-day returns of the price at one maturity date.
 */
module Engine {
  import opened Wrappers
  import opened Dates
  import opened Models
  import opened ForwardCurves

  /** A Python dict: its keys in insertion order and the value stored under each. */
  datatype Dict<K(==), V> = Dict(order: seq<K>, entries: map<K, V>) {
    ghost predicate Valid() {
      && (forall i, j :: 0 <= i < j < |order| ==> order[i] != order[j])
      && (forall k :: k in entries ==> k in order)
      && (forall k :: k in order ==> k in entries)
    }

    /** dict.items(), in insertion order. */
    function Items(): (r: seq<(K, V)>)
      requires Valid()
      ensures |r| == |order|
      ensures forall i :: 0 <= i < |r| ==> r[i].0 == order[i] && r[i].1 == entries[order[i]]
    {
      seq(|order|, i requires 0 <= i < |order| => assert order[i] in order; (order[i], entries[order[i]]))
    }
  }

  // ---- grouping: group_instruments_by_key ----

  /** The distinct keys of items, in the order in which each first occurs. */
  function FirstKeys<T, K(==)>(items: seq<T>, key: T -> K): seq<K> {
    if items == [] then []
    else
      var keys := FirstKeys(items[..|items| - 1], key);
      var k := key(items[|items| - 1]);
      if k in keys then keys else keys + [k]
  }

  /** The items whose key is k, in their original order. */
  function Members<T, K(==)>(items: seq<T>, key: T -> K, k: K): seq<T> {
    if items == [] then []
    else
      var last := items[|items| - 1];
      Members(items[..|items| - 1], key, k) + if key(last) == k then [last] else []
  }

  /** The total size of the groups of the given keys. */
  function SizeOfGroups<T, K(==)>(keys: seq<K>, items: seq<T>, key: T -> K): nat {
    if keys == [] then 0
    else SizeOfGroups(keys[..|keys| - 1], items, key) + |Members(items, key, keys[|keys| - 1])|
  }

  predicate Distinct<K(==)>(keys: seq<K>) {
    forall i, j :: 0 <= i < j < |keys| ==> keys[i] != keys[j]
  }

  lemma {:induction false} FirstKeyOccurs<T, K>(items: seq<T>, key: T -> K, k: K)
    requires k in FirstKeys(items, key)
    ensures exists i :: 0 <= i < |items| && key(items[i]) == k
  {
    var init := items[..|items| - 1];
    if k in FirstKeys(init, key) {
      FirstKeyOccurs(init, key, k);
      var i :| 0 <= i < |init| && key(init[i]) == k;
      assert key(items[i]) == k;
    } else {
      assert key(items[|items| - 1]) == k;
    }
  }

  lemma {:induction false} KeyIsListed<T, K>(items: seq<T>, key: T -> K, i: int)
    requires 0 <= i < |items|
    ensures key(items[i]) in FirstKeys(items, key)
  {
    var init := items[..|items| - 1];
    if i < |init| {
      KeyIsListed(init, key, i);
      assert init[i] == items[i];
    }
  }

  lemma {:induction false} FirstKeysDistinct<T, K>(items: seq<T>, key: T -> K)
    ensures Distinct(FirstKeys(items, key))
  {
    if items != [] {
      FirstKeysDistinct(items[..|items| - 1], key);
    }
  }

  /** The first-occurrence keys are distinct and are exactly the keys of the items. */
  lemma FirstKeysAreTheKeys<T, K>(items: seq<T>, key: T -> K)
    ensures Distinct(FirstKeys(items, key))
    ensures forall k :: k in FirstKeys(items, key) <==> exists i :: 0 <= i < |items| && key(items[i]) == k
  {
    FirstKeysDistinct(items, key);
    forall k | k in FirstKeys(items, key)
      ensures exists i :: 0 <= i < |items| && key(items[i]) == k
    {
      FirstKeyOccurs(items, key, k);
    }
    forall i | 0 <= i < |items|
      ensures key(items[i]) in FirstKeys(items, key)
    {
      KeyIsListed(items, key, i);
    }
  }

  /** A group is empty exactly when its key is not among the first-occurrence keys. */
  lemma {:induction false} MembersEmptyIffNoKey<T, K>(items: seq<T>, key: T -> K, k: K)
    ensures Members(items, key, k) == [] <==> k !in FirstKeys(items, key)
  {
    if items != [] {
      MembersEmptyIffNoKey(items[..|items| - 1], key, k);
    }
  }

  /** Every member of the group of k has key k. */
  lemma {:induction false} MembersHaveTheirKey<T, K>(items: seq<T>, key: T -> K, k: K)
    ensures forall j :: 0 <= j < |Members(items, key, k)| ==> key(Members(items, key, k)[j]) == k
  {
    if items != [] {
      MembersHaveTheirKey(items[..|items| - 1], key, k);
    }
  }

  /** Grouping keeps input order: the group of a concatenation is the concatenation of the groups. */
  lemma {:induction false} MembersOfConcat<T, K>(a: seq<T>, b: seq<T>, key: T -> K, k: K)
    ensures Members(a + b, key, k) == Members(a, key, k) + Members(b, key, k)
    decreases |b|
  {
    if b != [] {
      var b' := b[..|b| - 1];
      assert (a + b)[..|a + b| - 1] == a + b';
      MembersOfConcat(a, b', key, k);
    } else {
      assert a + b == a;
    }
  }

  /** Appending one item extends the group of its key by that item and leaves every other group as it was. */
  lemma MembersSnoc<T, K>(items: seq<T>, x: T, key: T -> K, k: K)
    ensures Members(items + [x], key, k) == Members(items, key, k) + if key(x) == k then [x] else []
  {
    assert (items + [x])[..|items|] == items;
  }

  /**
   * Record i lands in the group of its own key, between the records before it
   * and the records after it, and in no other group.
   */
  lemma {:induction false} ItemLandsInItsGroup<T, K>(items: seq<T>, key: T -> K, i: int, k: K)
    requires 0 <= i < |items|
    ensures k == key(items[i]) ==>
      Members(items, key, k) == Members(items[..i], key, k) + [items[i]] + Members(items[i + 1..], key, k)
    ensures k != key(items[i]) ==>
      Members(items, key, k) == Members(items[..i], key, k) + Members(items[i + 1..], key, k)
  {
    var before, x, after := items[..i], items[i], items[i + 1..];
    assert items == (before + [x]) + after;
    var mine := if key(x) == k then [x] else [];
    calc {
      Members(items, key, k);
      { MembersOfConcat(before + [x], after, key, k); }
      Members(before + [x], key, k) + Members(after, key, k);
      { MembersSnoc(before, x, key, k); }
      Members(before, key, k) + mine + Members(after, key, k);
    }
    if key(x) != k {
      assert Members(before, key, k) + mine == Members(before, key, k);
    }
  }

  /** Appending one item grows exactly the group of its key, by one, when that key is listed. */
  lemma {:induction false} SizeOfGroupsAppend<T, K>(keys: seq<K>, items: seq<T>, x: T, key: T -> K)
    requires Distinct(keys)
    ensures SizeOfGroups(keys, items + [x], key) == SizeOfGroups(keys, items, key) + if key(x) in keys then 1 else 0
  {
    if keys != [] {
      var init := keys[..|keys| - 1];
      SizeOfGroupsAppend(init, items, x, key);
      assert (items + [x])[..|items + [x]| - 1] == items;
      assert key(x) in keys <==> key(x) in init || key(x) == keys[|keys| - 1];
    }
  }

  /** Nothing is dropped or duplicated: the group sizes add up to the number of records. */
  lemma {:induction false} GroupSizesSum<T, K>(items: seq<T>, key: T -> K)
    ensures SizeOfGroups(FirstKeys(items, key), items, key) == |items|
  {
    if items != [] {
      var init := items[..|items| - 1];
      var x := items[|items| - 1];
      var k := key(x);
      var keys := FirstKeys(init, key);
      assert items == init + [x];
      GroupSizesSum(init, key);
      FirstKeysAreTheKeys(init, key);
      SizeOfGroupsAppend(keys, init, x, key);
      if k !in keys {
        assert (keys + [k])[..|keys|] == keys;
        MembersEmptyIffNoKey(init, key, k);
      }
    }
  }

  /** There are at most as many distinct keys as items, and at least one when there are items. */
  lemma {:induction false} KeyCountBound<T, K>(items: seq<T>, key: T -> K)
    ensures |FirstKeys(items, key)| <= |items|
    ensures items != [] ==> FirstKeys(items, key) != []
  {
    if items != [] {
      KeyCountBound(items[..|items| - 1], key);
    }
  }

  /**
   * group_instruments_by_key: one group per distinct key, keys in order of
   * first occurrence, each group the records with that key in input order.
   */
  method GroupInstrumentsByKey<T, K(==)>(instrumentDetails: seq<T>, keyFunc: T -> K)
    returns (grouped: Dict<K, seq<T>>)
    ensures grouped.Valid()
    ensures grouped.order == FirstKeys(instrumentDetails, keyFunc)
    ensures forall k :: k in grouped.entries <==> exists i :: 0 <= i < |instrumentDetails| && keyFunc(instrumentDetails[i]) == k
    ensures forall k :: k in grouped.entries ==> grouped.entries[k] == Members(instrumentDetails, keyFunc, k) && grouped.entries[k] != []
    ensures SizeOfGroups(grouped.order, instrumentDetails, keyFunc) == |instrumentDetails|
    ensures |grouped.order| <= |instrumentDetails|
    ensures instrumentDetails != [] ==> grouped.order != []
  {
    grouped := Dict([], map[]);
    for i := 0 to |instrumentDetails|
      invariant grouped.Valid()
      invariant grouped.order == FirstKeys(instrumentDetails[..i], keyFunc)
      invariant forall k :: k in grouped.entries ==> grouped.entries[k] == Members(instrumentDetails[..i], keyFunc, k)
    {
      var details := instrumentDetails[i];
      var k := keyFunc(details);
      assert instrumentDetails[..i + 1][..i] == instrumentDetails[..i];
      if k in grouped.entries {
        // the list under an existing key grows by one
        grouped := Dict(grouped.order, grouped.entries[k := grouped.entries[k] + [details]]);
      } else {
        // defaultdict(list) creates the empty list for a new key, which then holds one record
        MembersEmptyIffNoKey(instrumentDetails[..i], keyFunc, k);
        grouped := Dict(grouped.order + [k], grouped.entries[k := [details]]);
      }
    }
    assert instrumentDetails[..|instrumentDetails|] == instrumentDetails;
    FirstKeysAreTheKeys(instrumentDetails, keyFunc);
    GroupSizesSum(instrumentDetails, keyFunc);
    forall k | k in grouped.entries
      ensures grouped.entries[k] != []
    {
      MembersEmptyIffNoKey(instrumentDetails, keyFunc, k);
    }
    KeyCountBound(instrumentDetails, keyFunc);
  }

  // ---- build_curves ----

  /** The key function build_curves means to group by: the record's own curve key. */
  function KeyOf(d: InstrumentDetails): (k: CurveKey)
    ensures CurveKeyAttribute(d, "forward_curve_key") == Returned(k)
  {
    d.forwardCurveKey
  }

  /** Every curve is the ACT/365 cubic-spline curve of the group stored under its key. */
  ghost predicate CurvesOfGroups(curves: map<CurveKey, ForwardCurve>, groups: map<CurveKey, seq<InstrumentDetails>>) {
    forall k :: k in curves ==> k in groups && SampledFrom(curves[k], k, Act365, CubicSpline, groups[k])
  }

  lemma CurvesOfGroupsGrow(
    curves: map<CurveKey, ForwardCurve>, groups: map<CurveKey, seq<InstrumentDetails>>, k: CurveKey, c: ForwardCurve)
    requires CurvesOfGroups(curves, groups)
    requires k in groups && SampledFrom(c, k, Act365, CubicSpline, groups[k])
    ensures CurvesOfGroups(curves[k := c], groups)
  {
  }

  /**
   * build_curves, as evidently intended: one curve per distinct curve key, in
   * order of first occurrence, each built with ACT/365 and a cubic spline from
   * that key's records in input order; the mapping is returned.
   */
  method BuildCurves(instrumentDetails: seq<InstrumentDetails>) returns (curveByKey: Dict<CurveKey, ForwardCurve>)
    ensures curveByKey.Valid()
    ensures curveByKey.order == FirstKeys(instrumentDetails, KeyOf)
    ensures forall k :: k in curveByKey.entries <==> exists i :: 0 <= i < |instrumentDetails| && instrumentDetails[i].forwardCurveKey == k
    ensures forall k :: k in curveByKey.entries ==>
      && curveByKey.entries[k].curveKey == k
      && SampledFrom(curveByKey.entries[k], k, Act365, CubicSpline, Members(instrumentDetails, KeyOf, k))
    ensures |curveByKey.order| <= |instrumentDetails|
    ensures instrumentDetails != [] ==> curveByKey.order != []
  {
    var detailsByCurveKey := GroupInstrumentsByKey(instrumentDetails, KeyOf);
    curveByKey := CurvesForGroups(detailsByCurveKey);
    CurvesOfAllGroups(instrumentDetails, detailsByCurveKey, curveByKey);
    CurveKeysAreRecordKeys(instrumentDetails, curveByKey);
  }

  /** The loop of build_curves: one ACT/365 cubic-spline curve per group, in the groups' key order. */
  method CurvesForGroups(detailsByCurveKey: Dict<CurveKey, seq<InstrumentDetails>>) returns (curveByKey: Dict<CurveKey, ForwardCurve>)
    requires detailsByCurveKey.Valid()
    ensures curveByKey.Valid()
    ensures curveByKey.order == detailsByCurveKey.order
    ensures CurvesOfGroups(curveByKey.entries, detailsByCurveKey.entries)
  {
    curveByKey := Dict([], map[]);
    for i := 0 to |detailsByCurveKey.order|
      invariant curveByKey.Valid()
      invariant curveByKey.order == detailsByCurveKey.order[..i]
      invariant CurvesOfGroups(curveByKey.entries, detailsByCurveKey.entries)
    {
      var curveKey := detailsByCurveKey.order[i];
      assert curveKey in detailsByCurveKey.order;
      var curve := CreateFrom(curveKey, Act365, CubicSpline, detailsByCurveKey.entries[curveKey]);
      CurvesOfGroupsGrow(curveByKey.entries, detailsByCurveKey.entries, curveKey, curve);
      assert detailsByCurveKey.order[..i + 1] == detailsByCurveKey.order[..i] + [curveKey];
      curveByKey := Dict(curveByKey.order + [curveKey], curveByKey.entries[curveKey := curve]);
    }
    assert detailsByCurveKey.order[..|detailsByCurveKey.order|] == detailsByCurveKey.order;
  }

  /** Once every group has its curve, each curve is that of the records with its key. */
  lemma CurvesOfAllGroups(
    instrumentDetails: seq<InstrumentDetails>, grouped: Dict<CurveKey, seq<InstrumentDetails>>,
    curveByKey: Dict<CurveKey, ForwardCurve>)
    requires grouped.Valid() && curveByKey.Valid() && curveByKey.order == grouped.order
    requires forall k :: k in grouped.entries ==> grouped.entries[k] == Members(instrumentDetails, KeyOf, k)
    requires CurvesOfGroups(curveByKey.entries, grouped.entries)
    ensures forall k :: k in curveByKey.entries ==>
      && curveByKey.entries[k].curveKey == k
      && SampledFrom(curveByKey.entries[k], k, Act365, CubicSpline, Members(instrumentDetails, KeyOf, k))
  {
  }

  /** Keys listed in first-occurrence order are exactly the records' keys: at most one per record, at least one when there are records. */
  lemma CurveKeysAreRecordKeys(instrumentDetails: seq<InstrumentDetails>, curveByKey: Dict<CurveKey, ForwardCurve>)
    requires curveByKey.Valid() && curveByKey.order == FirstKeys(instrumentDetails, KeyOf)
    ensures forall k :: k in curveByKey.entries <==> exists i :: 0 <= i < |instrumentDetails| && instrumentDetails[i].forwardCurveKey == k
    ensures |curveByKey.order| <= |instrumentDetails|
    ensures instrumentDetails != [] ==> curveByKey.order != []
  {
    FirstKeysAreTheKeys(instrumentDetails, KeyOf);
    forall k
      ensures k in curveByKey.entries <==> k in curveByKey.order
    {
    }
    KeyCountBound(instrumentDetails, KeyOf);
  }

  /**
   * Reading, from a record, one of the two names build_curves may use for its
   * key: `forward_curve_key` is set by the constructor and yields the key;
   * `curve_key` is set nowhere, so reading it raises AttributeError.
   */
  function CurveKeyAttribute(d: InstrumentDetails, name: string): (r: Outcome<CurveKey>)
    requires name == "curve_key" || name == "forward_curve_key"
    ensures r.Returned? <==> name == "forward_curve_key"
    ensures r.Returned? ==> r.value == d.forwardCurveKey
    ensures r.Raised? ==> r.error == AttributeError(name)
  {
    if name == "forward_curve_key" then Returned(d.forwardCurveKey) else Raised(AttributeError(name))
  }

  /**
   * build_curves exactly as written: the key function reads `curve_key`,
   * which raises on the first record; with no records the loop does not run
   * and the function, lacking a return statement, yields None.
   */
  function BuildCurvesAsWritten(instrumentDetails: seq<InstrumentDetails>): (r: Outcome<Option<Dict<CurveKey, ForwardCurve>>>)
    ensures r.Raised? <==> |instrumentDetails| > 0
  {
    if instrumentDetails == [] then Returned(None)
    else
      match CurveKeyAttribute(instrumentDetails[0], "curve_key")
      case Raised(e) => Raised(e)
      case Returned(_) => Returned(None)
  }

  /** As written, build_curves never hands back any curves: it raises AttributeError or yields None. */
  lemma BuildCurvesAsWrittenYieldsNoCurves(instrumentDetails: seq<InstrumentDetails>)
    ensures !(BuildCurvesAsWritten(instrumentDetails).Returned? && BuildCurvesAsWritten(instrumentDetails).value.Some?)
    ensures instrumentDetails != [] ==> BuildCurvesAsWritten(instrumentDetails) == Raised(AttributeError("curve_key"))
  {
  }

  // ---- calculate_historical_returns ----

  datatype HistoricalReturns = HistoricalReturns(settlementDate: Date, dailyReturn: real)

  /** The return from one price to the next; 0.0 when the earlier price is exactly zero. */
  function DailyReturn(previousPrice: real, currentPrice: real): (r: real)
    ensures previousPrice == 0.0 ==> r == 0.0
    ensures previousPrice != 0.0 ==> previousPrice * (1.0 + r) == currentPrice
  {
    if previousPrice == 0.0 then 0.0 else (currentPrice - previousPrice) / previousPrice
  }

  /** Entries in non-decreasing settlement-date order. */
  predicate SortedBySettlementDate<V>(entries: seq<(CurveKey, V)>) {
    forall i, j :: 0 <= i < j < |entries| ==> !Before(entries[j].0.settlementDate, entries[i].0.settlementDate)
  }

  /** Puts x in front of the first entry whose date is not earlier than x's. */
  function InsertBySettlementDate<V>(x: (CurveKey, V), entries: seq<(CurveKey, V)>): (r: seq<(CurveKey, V)>)
    ensures |r| == |entries| + 1
  {
    if entries == [] then [x]
    else if !Before(entries[0].0.settlementDate, x.0.settlementDate) then [x] + entries
    else [entries[0]] + InsertBySettlementDate(x, entries[1..])
  }

  /** sorted(entries, key=settlement date): a stable sort on Python's date order. */
  function SortBySettlementDate<V>(entries: seq<(CurveKey, V)>): (r: seq<(CurveKey, V)>)
    ensures |r| == |entries|
  {
    if entries == [] then []
    else InsertBySettlementDate(entries[0], SortBySettlementDate(entries[1..]))
  }

  /** The entries of one settlement date, in order. */
  function OnDate<V>(entries: seq<(CurveKey, V)>, d: Date): seq<(CurveKey, V)> {
    if entries == [] then []
    else (if entries[0].0.settlementDate == d then [entries[0]] else []) + OnDate(entries[1..], d)
  }

  /** Putting e in front of a sorted sequence of entries none earlier than e keeps it sorted. */
  lemma SortedCons<V>(e: (CurveKey, V), rest: seq<(CurveKey, V)>)
    requires SortedBySettlementDate(rest)
    requires forall j :: 0 <= j < |rest| ==> !Before(rest[j].0.settlementDate, e.0.settlementDate)
    ensures SortedBySettlementDate([e] + rest)
  {
  }

  lemma {:induction false} InsertPermutes<V>(x: (CurveKey, V), entries: seq<(CurveKey, V)>)
    ensures multiset(InsertBySettlementDate(x, entries)) == multiset(entries) + multiset{x}
  {
    if entries != [] && Before(entries[0].0.settlementDate, x.0.settlementDate) {
      InsertPermutes(x, entries[1..]);
      assert entries == [entries[0]] + entries[1..];
    }
  }

  lemma {:induction false} InsertKeepsSorted<V>(x: (CurveKey, V), entries: seq<(CurveKey, V)>)
    requires SortedBySettlementDate(entries)
    ensures SortedBySettlementDate(InsertBySettlementDate(x, entries))
  {
    if entries == [] {
    } else if !Before(entries[0].0.settlementDate, x.0.settlementDate) {
      forall j | 0 <= j < |entries|
        ensures !Before(entries[j].0.settlementDate, x.0.settlementDate)
      {
        if j > 0 {
          assert !Before(entries[j].0.settlementDate, entries[0].0.settlementDate);
        }
      }
      SortedCons(x, entries);
    } else {
      var rest := InsertBySettlementDate(x, entries[1..]);
      InsertKeepsSorted(x, entries[1..]);
      InsertPermutes(x, entries[1..]);
      forall j | 0 <= j < |rest|
        ensures !Before(rest[j].0.settlementDate, entries[0].0.settlementDate)
      {
        assert rest[j] in multiset(rest);
        if rest[j] != x {
          var k :| 0 <= k < |entries[1..]| && entries[1..][k] == rest[j];
          assert entries[k + 1] == rest[j];
        }
      }
      SortedCons(entries[0], rest);
    }
  }

  lemma {:induction false} InsertOnDate<V>(x: (CurveKey, V), entries: seq<(CurveKey, V)>, d: Date)
    ensures OnDate(InsertBySettlementDate(x, entries), d)
         == (if x.0.settlementDate == d then [x] else []) + OnDate(entries, d)
  {
    if entries == [] {
      assert [x][1..] == [];
    } else if !Before(entries[0].0.settlementDate, x.0.settlementDate) {
      assert ([x] + entries)[1..] == entries;
    } else {
      var rest := InsertBySettlementDate(x, entries[1..]);
      InsertOnDate(x, entries[1..], d);
      assert ([entries[0]] + rest)[1..] == rest;
    }
  }

  /**
   * The sort orders entries by settlement date, is a permutation of its input,
   * and is stable: the entries of any one date keep their input order.
   */
  lemma {:induction false} SortBySettlementDateIsStableSort<V>(entries: seq<(CurveKey, V)>, d: Date)
    ensures SortedBySettlementDate(SortBySettlementDate(entries))
    ensures multiset(SortBySettlementDate(entries)) == multiset(entries)
    ensures OnDate(SortBySettlementDate(entries), d) == OnDate(entries, d)
  {
    if entries != [] {
      SortBySettlementDateIsStableSort(entries[1..], d);
      InsertKeepsSorted(entries[0], SortBySettlementDate(entries[1..]));
      InsertPermutes(entries[0], SortBySettlementDate(entries[1..]));
      InsertOnDate(entries[0], SortBySettlementDate(entries[1..]), d);
      assert entries == [entries[0]] + entries[1..];
    }
  }

  /**
   * The entry calculate_historical_returns emits for a curve after the first:
   * the return from the previous curve's price at the maturity date to this
   * curve's, tagged with this curve's settlement date.
   */
  function ReturnAfter(
    previous: ForwardCurve, current: (CurveKey, ForwardCurve), maturityDate: Date, today: Date, eval: Evaluator): HistoricalReturns
  {
    HistoricalReturns(
      current.0.settlementDate,
      DailyReturn(GetPriceForDate(previous, maturityDate, today, eval), GetPriceForDate(current.1, maturityDate, today, eval)))
  }

  /**
   * calculate_historical_returns, with today's date passed in: the curves
   * sorted by settlement date, and one entry for each curve after the first,
   * made from it and the curve before it. Every curve takes part, whatever
   * its product.
   */
  method CalculateHistoricalReturns(
    curvesByKey: Dict<CurveKey, ForwardCurve>, details: InstrumentDetails, today: Date, eval: Evaluator)
    returns (historicalReturns: seq<HistoricalReturns>)
    requires curvesByKey.Valid()
    ensures var sorted := SortBySettlementDate(curvesByKey.Items());
      && |historicalReturns| == (if |sorted| == 0 then 0 else |sorted| - 1)
      && forall j :: 0 <= j < |historicalReturns| ==>
           historicalReturns[j] == ReturnAfter(sorted[j].1, sorted[j + 1], details.maturityDate, today, eval)
    ensures |historicalReturns| == if curvesByKey.order == [] then 0 else |curvesByKey.order| - 1
    ensures forall i, j :: 0 <= i < j < |historicalReturns| ==>
      !Before(historicalReturns[j].settlementDate, historicalReturns[i].settlementDate)
  {
    var maturityDate := details.maturityDate;
    // dict(sorted(...)): the keys are distinct, so rebuilding the dict keeps every sorted entry
    var sortedByValues := SortBySettlementDate(curvesByKey.Items());
    historicalReturns := ReturnsAlong(sortedByValues, maturityDate, today, eval);
    SortedItems(curvesByKey);
    ReturnDatesFollowSort(historicalReturns, sortedByValues);
  }

  /** The loop of calculate_historical_returns over the sorted curves: one return per consecutive pair. */
  method ReturnsAlong(
    sortedByValues: seq<(CurveKey, ForwardCurve)>, maturityDate: Date, today: Date, eval: Evaluator)
    returns (historicalReturns: seq<HistoricalReturns>)
    ensures |historicalReturns| == (if |sortedByValues| == 0 then 0 else |sortedByValues| - 1)
    ensures forall j :: 0 <= j < |historicalReturns| ==>
      historicalReturns[j] == ReturnAfter(sortedByValues[j].1, sortedByValues[j + 1], maturityDate, today, eval)
  {
    historicalReturns := [];
    var previousCurve: Option<ForwardCurve> := None;
    for i := 0 to |sortedByValues|
      invariant previousCurve == if i == 0 then None else Some(sortedByValues[i - 1].1)
      invariant |historicalReturns| == if i == 0 then 0 else i - 1
      invariant forall j :: 0 <= j < |historicalReturns| ==>
        historicalReturns[j] == ReturnAfter(sortedByValues[j].1, sortedByValues[j + 1], maturityDate, today, eval)
    {
      var (curveKey, curve) := sortedByValues[i];
      if previousCurve.None? {
        previousCurve := Some(curve);
        continue;
      }
      var previousPrice := GetPriceForDate(previousCurve.value, maturityDate, today, eval);
      var currentPrice := GetPriceForDate(curve, maturityDate, today, eval);
      var dailyReturns: real;
      if previousPrice == 0.0 {
        dailyReturns := 0.0;
      } else {
        dailyReturns := (currentPrice - previousPrice) / previousPrice;
      }
      assert HistoricalReturns(curveKey.settlementDate, dailyReturns)
          == ReturnAfter(previousCurve.value, sortedByValues[i], maturityDate, today, eval);
      historicalReturns := historicalReturns + [HistoricalReturns(curveKey.settlementDate, dailyReturns)];
      previousCurve := Some(curve);
    }
  }

  /** The sorted items of a dict: as many as its keys, in settlement-date order. */
  lemma SortedItems(curvesByKey: Dict<CurveKey, ForwardCurve>)
    requires curvesByKey.Valid()
    ensures |SortBySettlementDate(curvesByKey.Items())| == |curvesByKey.order|
    ensures multiset(SortBySettlementDate(curvesByKey.Items())) == multiset(curvesByKey.Items())
    ensures SortedBySettlementDate(SortBySettlementDate(curvesByKey.Items()))
  {
    var items := curvesByKey.Items();
    SortBySettlementDateIsStableSort(items, YearMonthDay(1, 1, 1));
    assert |multiset(SortBySettlementDate(items))| == |multiset(items)|;
  }

  /** Returns tagged with the dates of sorted entries 1, 2, ... come in non-decreasing date order. */
  lemma ReturnDatesFollowSort(emitted: seq<HistoricalReturns>, sorted: seq<(CurveKey, ForwardCurve)>)
    requires SortedBySettlementDate(sorted)
    requires emitted == [] || |emitted| < |sorted|
    requires forall j :: 0 <= j < |emitted| ==> emitted[j].settlementDate == sorted[j + 1].0.settlementDate
    ensures forall i, j :: 0 <= i < j < |emitted| ==> !Before(emitted[j].settlementDate, emitted[i].settlementDate)
  {
  }

  /** The two dates of create_test_details are 150 days, 150/365 of an ACT/365 year, apart. */
  lemma TestDatesAreFiveMonthsApart()
    ensures DaysBetween(YearMonthDay(2025, 2, 1), YearMonthDay(2025, 7, 1)) == 150
    ensures YearFraction(YearMonthDay(2025, 2, 1), YearMonthDay(2025, 7, 1), Act365) == 150.0 / 365.0
  {
  }

  lemma ParseOfTestSettlement()
    ensures ParseYyyymmdd("20250201") == Some(YearMonthDay(2025, 2, 1))
  {
    var d: Date := YearMonthDay(2025, 2, 1);
    assert FormatYyyymmdd(d) == "20250201";
    ParseFormat(d, "20250201");
  }

  lemma ParseOfTestMaturity()
    ensures ParseYyyymmdd("20250701") == Some(YearMonthDay(2025, 7, 1))
  {
    var d: Date := YearMonthDay(2025, 7, 1);
    assert FormatYyyymmdd(d) == "20250701";
    ParseFormat(d, "20250701");
  }

  /** create_test_details: the fixed record parses, and it matures 150 days, 150/365 of a year, after settlement. */
  lemma TestDetailsVector()
    ensures NewInstrumentDetails("20250201", "TEST", "TEST", Future, "USD", 0.0, "20250701").Returned?
    ensures var d := NewInstrumentDetails("20250201", "TEST", "TEST", Future, "USD", 0.0, "20250701").value;
      && d.settlementDate == YearMonthDay(2025, 2, 1) && d.maturityDate == YearMonthDay(2025, 7, 1)
      && YearFraction(d.settlementDate, d.maturityDate, Act365) == 150.0 / 365.0
  {
    ParseOfTestSettlement();
    ParseOfTestMaturity();
    TestDatesAreFiveMonthsApart();
  }
}
