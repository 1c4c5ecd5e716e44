/** The data processing of the Python script `scraping.py`: reading the store
    rows of each screen into `sales_hash` and `orders_hash`, scrolling until
    the displayed total is reached or a scroll brings no new store, and
    turning the two maps into the records posted to the API.

    The device is an oracle `screens`: `screens(k)` is the list of elements
    visible after `k` scrolls, `screens(0)` the one seen on arrival. */
module PyScraping {
  import opened Results
  import opened OrderedMaps
  import opened Decimal
  import opened Labels
  import opened StoreInfo
  import opened StopRules

  /** `sales_hash` and `orders_hash`, both keyed by store name. */
  datatype Hashes = Hashes(sales: OrderedMap<string>, orders: OrderedMap<string>)

  /** The two maps are well formed and list the same names in the same order. */
  ghost predicate Parallel(h: Hashes) {
    && h.sales.Valid()
    && h.orders.Valid()
    && h.sales.keys == h.orders.keys
  }

  function EmptyHashes(): (h: Hashes)
    ensures Parallel(h) && h.sales.Size() == 0
  {
    Hashes(Empty(), Empty())
  }

  /** The body of the `for store_element in ...` loops: a row that is read
      is written into both maps under its name. */
  function MergeItem(h: Hashes, labels: Item): Hashes {
    match GetDataFromStoreInfo(labels)
    case None => h
    case Some(row) => Hashes(Put(h.sales, row.name, row.sales), Put(h.orders, row.name, row.orders))
  }

  /** A row adds its name, if it is read, to both maps and to the end of
      both key lists, and moves no name already there. */
  lemma MergeItemGrows(h: Hashes, labels: Item)
    ensures var r := MergeItem(h, labels);
            && (Parallel(h) ==> Parallel(r))
            && h.sales.keys <= r.sales.keys && h.orders.keys <= r.orders.keys
            && r.sales.KeySet() == h.sales.KeySet() + RowNames(labels)
            && r.orders.KeySet() == h.orders.KeySet() + RowNames(labels)
  {
  }

  /** A row not read under the name `n` leaves the entries of `n` alone. */
  lemma MergeItemOther(h: Hashes, labels: Item, n: string)
    requires !NamedRow(labels, n)
    ensures var r := MergeItem(h, labels);
            && (n in r.sales.values <==> n in h.sales.values)
            && (n in r.orders.values <==> n in h.orders.values)
            && (n in h.sales.values ==> r.sales.values[n] == h.sales.values[n])
            && (n in h.orders.values ==> r.orders.values[n] == h.orders.values[n])
  {
  }

  /** One pass over the rows of a screen, first to last. */
  function MergeScreen(h: Hashes, screen: Screen): Hashes
    decreases |screen|
  {
    if |screen| == 0 then h
    else
      MergeItem(MergeScreen(h, screen[..|screen| - 1]), screen[|screen| - 1])
  }

  /** A pass adds exactly the names of the rows read, appending new ones and
      moving none. */
  lemma {:induction false} MergeScreenGrows(h: Hashes, screen: Screen)
    ensures var r := MergeScreen(h, screen);
            && (Parallel(h) ==> Parallel(r))
            && h.sales.keys <= r.sales.keys && h.orders.keys <= r.orders.keys
            && r.sales.KeySet() == h.sales.KeySet() + NamesIn(screen)
            && r.orders.KeySet() == h.orders.KeySet() + NamesIn(screen)
    decreases |screen|
  {
    if |screen| > 0 {
      var prefix := screen[..|screen| - 1];
      MergeScreenGrows(h, prefix);
      MergeItemGrows(MergeScreen(h, prefix), screen[|screen| - 1]);
    }
  }

  /** Later reads overwrite earlier ones: after a pass, a name holds the
      texts of the last row read under it. */
  lemma {:induction false} LastReadWins(h: Hashes, screen: Screen, i: nat)
    requires i < |screen| && |screen[i]| >= MinLabels
    requires forall j :: i < j < |screen| ==> !NamedRow(screen[j], screen[i][0])
    ensures var r := MergeScreen(h, screen);
            var row := GetDataFromStoreInfo(screen[i]).value;
            && row.name in r.sales.values && r.sales.values[row.name] == row.sales
            && row.name in r.orders.values && r.orders.values[row.name] == row.orders
    decreases |screen|
  {
    var prefix := screen[..|screen| - 1];
    if i < |screen| - 1 {
      assert prefix[i] == screen[i];
      forall j | i < j < |prefix|
        ensures !NamedRow(prefix[j], prefix[i][0])
      {
        assert prefix[j] == screen[j];
      }
      LastReadWins(h, prefix, i);
      MergeItemOther(MergeScreen(h, prefix), screen[|screen| - 1], screen[i][0]);
    }
  }

  /** A name that no row of the screen carries keeps its entries. */
  lemma {:induction false} UnreadKeepsValue(h: Hashes, screen: Screen, n: string)
    requires forall j :: 0 <= j < |screen| ==> !NamedRow(screen[j], n)
    ensures var r := MergeScreen(h, screen);
            && (n in r.sales.values <==> n in h.sales.values)
            && (n in r.orders.values <==> n in h.orders.values)
            && (n in h.sales.values ==> r.sales.values[n] == h.sales.values[n])
            && (n in h.orders.values ==> r.orders.values[n] == h.orders.values[n])
    decreases |screen|
  {
    if |screen| > 0 {
      var prefix := screen[..|screen| - 1];
      forall j | 0 <= j < |prefix|
        ensures !NamedRow(prefix[j], n)
      {
        assert prefix[j] == screen[j];
      }
      UnreadKeepsValue(h, prefix, n);
      MergeItemOther(MergeScreen(h, prefix), screen[|screen| - 1], n);
    }
  }

  /** The maps after the initial screen and `n` scrolls. The first element
      of the initial screen is not a store and is dropped (`pop(0)`); the
      screens after a scroll are read whole. */
  function Accumulate(screens: nat -> Screen, n: nat): Hashes
    requires |screens(0)| > 0
    decreases n
  {
    if n == 0 then MergeScreen(EmptyHashes(), screens(0)[1..])
    else MergeScreen(Accumulate(screens, n - 1), screens(n))
  }

  /** The two maps stay parallel through the whole harvest. */
  lemma {:induction false} AccumulateParallel(screens: nat -> Screen, n: nat)
    requires |screens(0)| > 0
    ensures Parallel(Accumulate(screens, n))
  {
    if n == 0 {
      MergeScreenGrows(EmptyHashes(), screens(0)[1..]);
    } else {
      AccumulateParallel(screens, n - 1);
      MergeScreenGrows(Accumulate(screens, n - 1), screens(n));
    }
  }

  /** The initial screen is read without its first element; a screen after
      a scroll is read whole. */
  lemma AccumulateReads(screens: nat -> Screen, n: nat)
    requires |screens(0)| > 0
    ensures n == 0 ==> Accumulate(screens, n).sales.KeySet() == NamesIn(screens(0)[1..])
    ensures n > 0 ==> NamesIn(screens(n)) <= Accumulate(screens, n).sales.KeySet()
  {
    if n == 0 {
      MergeScreenGrows(EmptyHashes(), screens(0)[1..]);
    } else {
      MergeScreenGrows(Accumulate(screens, n - 1), screens(n));
    }
  }

  /** The test `len(sales_hash) == prev_total_count` means what the comment
      at lines 66-70 says: scroll `n` brought no name that was not already
      known. */
  lemma StallMeansNoNewName(screens: nat -> Screen, n: nat)
    requires |screens(0)| > 0
    requires n > 0
    ensures Count(screens, n) == Count(screens, n - 1)
            <==> NamesIn(screens(n)) <= Accumulate(screens, n - 1).sales.KeySet()
  {
    var before := Accumulate(screens, n - 1);
    MergeScreenGrows(before, screens(n));
    AccumulateParallel(screens, n - 1);
    SameSizeSameKeys(before.sales, Accumulate(screens, n).sales);
  }

  /** `len(sales_hash)` after `n` scrolls. */
  function Count(screens: nat -> Screen, n: nat): nat
    requires |screens(0)| > 0
  {
    Accumulate(screens, n).sales.Size()
  }

  /** The trace of sizes the stopping rule looks at. */
  function Sizes(screens: nat -> Screen): (c: nat -> nat)
    requires |screens(0)| > 0
  {
    n => Count(screens, n)
  }

  /** The names already read are never lost, nor do they move. */
  lemma {:induction false} AccumulateGrows(screens: nat -> Screen, m: nat, n: nat)
    requires |screens(0)| > 0
    requires m <= n
    ensures Accumulate(screens, m).sales.keys <= Accumulate(screens, n).sales.keys
    ensures Count(screens, m) <= Count(screens, n)
    decreases n - m
  {
    if m < n {
      AccumulateGrows(screens, m, n - 1);
      MergeScreenGrows(Accumulate(screens, n - 1), screens(n));
      assert Count(screens, n) == |Accumulate(screens, n).sales.keys|;
    }
  }

  datatype Harvested = Harvested(hashes: Hashes, scrolls: nat)

  /** Lines 39-75 of `main`, after the total has been read: read the initial
      screen without its first element, then scroll and read while fewer
      names than the total are known, stopping early when a scroll adds no
      name. */
  method Harvest(total: nat, screens: nat -> Screen) returns (r: Result<Harvested>)
    ensures r.Failure? <==> |screens(0)| == 0
    ensures r.Failure? ==> r.error == PopFromEmptyList
    ensures r.Success? ==> && r.value.hashes == Accumulate(screens, r.value.scrolls)
                           && PyStopsAt(Sizes(screens), total, r.value.scrolls)
                           && r.value.scrolls <= PyScrollBound(Sizes(screens), total)
  {
    var h :- ReadInitial(screens);
    ghost var c := Sizes(screens);
    var prevTotalCount := h.sales.Size();
    var scrolls: nat := 0;
    while h.sales.Size() < total
      invariant h == Accumulate(screens, scrolls)
      invariant prevTotalCount == h.sales.Size() == c(scrolls)
      invariant forall i :: 0 <= i < scrolls ==> BelowTotal(c, total, i)
      invariant AddedBefore(c, scrolls + 1)
      decreases total - h.sales.Size()
    {
      BelowTotalStep(c, total, scrolls);
      scrolls := scrolls + 1;
      h := ReadScreen(h, screens(scrolls));
      AccumulateStep(screens, scrolls);
      if h.sales.Size() == prevTotalCount {
        break;
      }
      AddedStep(c, scrolls - 1);
      prevTotalCount := h.sales.Size();
    }
    PyStopsAtBound(c, total, scrolls);
    r := Success(Harvested(h, scrolls));
  }

  /** Lines 39-48: drop the first element of the initial screen and read
      the rest; `pop(0)` raises on an empty list. */
  method ReadInitial(screens: nat -> Screen) returns (r: Result<Hashes>)
    ensures r.Failure? <==> |screens(0)| == 0
    ensures r.Failure? ==> r.error == PopFromEmptyList
    ensures r.Success? ==> && |screens(0)| > 0
                           && r.value == Accumulate(screens, 0)
                           && r.value.sales.Size() == Sizes(screens)(0)
  {
    var allStoresDisplayed := screens(0);
    if |allStoresDisplayed| == 0 {
      return Failure(PopFromEmptyList);
    }
    var h := ReadScreen(EmptyHashes(), allStoresDisplayed[1..]);
    AccumulateStep(screens, 0);
    return Success(h);
  }

  /** One `for store_element in ...` loop. */
  method ReadScreen(h: Hashes, screen: Screen) returns (r: Hashes)
    ensures r == MergeScreen(h, screen)
  {
    r := h;
    for i := 0 to |screen|
      invariant r == MergeScreen(h, screen[..i])
    {
      assert screen[..i + 1][..i] == screen[..i];
      r := MergeItem(r, screen[i]);
    }
    assert screen[..|screen|] == screen;
  }

  /** How the maps after `n` scrolls are obtained, and their size in the
      trace. */
  lemma AccumulateStep(screens: nat -> Screen, n: nat)
    requires |screens(0)| > 0
    ensures n == 0 ==> Accumulate(screens, n) == MergeScreen(EmptyHashes(), screens(0)[1..])
    ensures n > 0 ==> Accumulate(screens, n) == MergeScreen(Accumulate(screens, n - 1), screens(n))
    ensures Sizes(screens)(n) == Accumulate(screens, n).sales.Size()
    ensures n > 0 ==> Sizes(screens)(n - 1) <= Sizes(screens)(n)
  {
    if n > 0 {
      AccumulateGrows(screens, n - 1, n);
    }
  }

  /** One element of the posted `data` array. */
  datatype ExportRecord = ExportRecord(restaurantName: string, sales: nat, orderCount: nat)

  /** The record of one store, evaluated as the dict display is: the sales
      text is converted first, then the order count is looked up and
      converted. */
  function RecordFor(name: string, sales: OrderedMap<string>, orders: OrderedMap<string>): (r: Result<ExportRecord>)
    requires name in sales.values
    ensures r.Success? <==> && ParseSales(sales.values[name]).Success?
                            && name in orders.values
                            && ParseInt(orders.values[name]).Success?
    ensures r.Success? ==> && r.value.restaurantName == name
                           && ParseSales(sales.values[name]) == Success(r.value.sales)
                           && ParseInt(orders.values[name]) == Success(r.value.orderCount)
  {
    var s :- ParseSales(sales.values[name]);
    if name !in orders.values then Failure(KeyNotFound(name))
    else
      var o :- ParseInt(orders.values[name]);
      Success(ExportRecord(name, s, o))
  }

  /** The records of the listed names, in order, or the first failure. */
  function RecordsFor(names: seq<string>, sales: OrderedMap<string>, orders: OrderedMap<string>): (r: Result<seq<ExportRecord>>)
    requires forall i :: 0 <= i < |names| ==> names[i] in sales.values
    ensures r.Success? <==> forall i :: 0 <= i < |names| ==> RecordFor(names[i], sales, orders).Success?
    ensures r.Success? ==> && |r.value| == |names|
                           && forall i :: 0 <= i < |names| ==> RecordFor(names[i], sales, orders) == Success(r.value[i])
    decreases |names|
  {
    if |names| == 0 then Success([])
    else
      var first :- RecordFor(names[0], sales, orders);
      var rest :- RecordsFor(names[1..], sales, orders);
      Success([first] + rest)
  }

  /** The error reported is that of the first name whose record fails. */
  lemma {:induction false} FirstFailureReported(names: seq<string>, sales: OrderedMap<string>, orders: OrderedMap<string>)
    requires forall i :: 0 <= i < |names| ==> names[i] in sales.values
    requires RecordsFor(names, sales, orders).Failure?
    ensures exists i :: && 0 <= i < |names|
                        && RecordFor(names[i], sales, orders) == Failure(RecordsFor(names, sales, orders).error)
                        && forall j :: 0 <= j < i ==> RecordFor(names[j], sales, orders).Success?
    decreases |names|
  {
    var e := RecordsFor(names, sales, orders).error;
    if RecordFor(names[0], sales, orders).Failure? {
      assert RecordFor(names[0], sales, orders) == Failure(e);
    } else {
      var tail := names[1..];
      FirstFailureReported(tail, sales, orders);
      var i :| && 0 <= i < |tail|
               && RecordFor(tail[i], sales, orders) == Failure(e)
               && forall j :: 0 <= j < i ==> RecordFor(tail[j], sales, orders).Success?;
      assert RecordFor(names[i + 1], sales, orders) == Failure(e);
      forall j | 0 <= j < i + 1
        ensures RecordFor(names[j], sales, orders).Success?
      {
        if j > 0 {
          assert names[j] == tail[j - 1];
        }
      }
    }
  }

  /** `create_api_post_data`: one record per key of `sales_hash`, in the
      order the names were first read. */
  function CreateApiPostData(sales: OrderedMap<string>, orders: OrderedMap<string>): (r: Result<seq<ExportRecord>>)
    requires sales.Valid()
    ensures r.Success? <==> forall n :: n in sales.values ==> RecordFor(n, sales, orders).Success?
    ensures r.Success? ==> && |r.value| == sales.Size()
                           && forall i :: 0 <= i < |r.value| ==>
                                (&& r.value[i].restaurantName == sales.keys[i]
                                 && ParseSales(sales.values[sales.keys[i]]) == Success(r.value[i].sales)
                                 && sales.keys[i] in orders.values
                                 && ParseInt(orders.values[sales.keys[i]]) == Success(r.value[i].orderCount))
  {
    var r := RecordsFor(sales.keys, sales, orders);
    assert forall n :: n in sales.values ==> exists i :: 0 <= i < |sales.keys| && sales.keys[i] == n;
    r
  }

  /** Each store is posted once: the names of the records are distinct. */
  lemma ExportNamesDistinct(sales: OrderedMap<string>, orders: OrderedMap<string>)
    requires sales.Valid()
    requires CreateApiPostData(sales, orders).Success?
    ensures var records := CreateApiPostData(sales, orders).value;
            forall i, j :: 0 <= i < j < |records| ==> records[i].restaurantName != records[j].restaurantName
  {
  }

  /** On maps built by the harvest no KeyError is possible: the export
      succeeds exactly when every sales text and every order count is a
      number. */
  lemma ExportOfHarvest(h: Hashes)
    requires Parallel(h)
    ensures CreateApiPostData(h.sales, h.orders).Success? <==>
            forall n :: n in h.sales.values ==> && ParseSales(h.sales.values[n]).Success?
                                                 && ParseInt(h.orders.values[n]).Success?
  {
  }

  /** `{"A": "¥100"}` and `{"A": "3"}` give one record `("A", 100, 3)`. */
  lemma ExportExample()
    ensures CreateApiPostData(OrderedMap(["A"], map["A" := "¥100"]), OrderedMap(["A"], map["A" := "3"]))
            == Success([ExportRecord("A", 100, 3)])
  {
    var sales := OrderedMap(["A"], map["A" := "¥100"]);
    var orders := OrderedMap(["A"], map["A" := "3"]);
    var record := ExportRecord("A", 100, 3);
    SalesExample100();
    assert ParseInt("3") == Success(3);
    assert RecordFor("A", sales, orders) == Success(record);
    assert RecordsFor(["A"], sales, orders) == Success([record]) by {
      assert ["A"][1..] == [] && RecordsFor([], sales, orders) == Success([]);
      assert [record] + [] == [record];
    }
  }

  /** One scraping cycle of `main`: read the total, harvest, build the
      records. */
  method Scrape(totalLabel: string, screens: nat -> Screen) returns (r: Result<seq<ExportRecord>>)
    ensures NoDigits(totalLabel) ==> r == Failure(NoDigitRun)
    ensures !NoDigits(totalLabel) && |screens(0)| == 0 ==> r == Failure(PopFromEmptyList)
    ensures ParseTotalCount(totalLabel).Success? && |screens(0)| > 0 ==>
              exists k :: && PyStopsAt(Sizes(screens), ParseTotalCount(totalLabel).value, k)
                          && Parallel(Accumulate(screens, k))
                          && r == CreateApiPostData(Accumulate(screens, k).sales, Accumulate(screens, k).orders)
  {
    var total :- ParseTotalCount(totalLabel);
    var harvested :- Harvest(total, screens);
    AccumulateParallel(screens, harvested.scrolls);
    r := CreateApiPostData(harvested.hashes.sales, harvested.hashes.orders);
  }

  /** The stall scenario: the total reads 12, the initial screen gives 5
      names, the first scroll 9 and the second 9 again; the harvest stops
      after the second scroll with 9 names. */
  lemma StallScenario(c: nat -> nat)
    requires c(0) == 5 && c(1) == 9 && c(2) == 9
    ensures PyStopsAt(c, 12, 2)
    ensures forall k :: PyStopsAt(c, 12, k) ==> k == 2
  {
    assert Added(c, 1);
    forall k | PyStopsAt(c, 12, k)
      ensures k == 2
    {
      PyStopsAtUnique(c, 12, 2, k);
    }
  }

  /** The total bounds what is collected in neither direction: a stall stops
      the loop below it (`StallScenario`), and a scroll that brings several
      new names at once can carry the map past it (5 names, then 14, with a
      total of 12), the loop then stopping with more names than the total. */
  lemma OvershootScenario(c: nat -> nat)
    requires c(0) == 5 && c(1) == 14
    ensures PyStopsAt(c, 12, 1) && c(1) > 12
  {
  }

  /** Only the first element of the initial screen is ignored: oracles that
      differ in nothing else give the same maps. */
  lemma {:induction false} FirstItemIgnored(a: nat -> Screen, b: nat -> Screen, n: nat)
    requires |a(0)| > 0 && |b(0)| > 0
    requires a(0)[1..] == b(0)[1..]
    requires forall k :: 0 < k <= n ==> a(k) == b(k)
    ensures Accumulate(a, n) == Accumulate(b, n)
  {
    if n > 0 {
      FirstItemIgnored(a, b, n - 1);
      assert a(n) == b(n);
      assert Accumulate(a, n) == MergeScreen(Accumulate(a, n - 1), a(n));
      assert Accumulate(b, n) == MergeScreen(Accumulate(b, n - 1), b(n));
    } else {
      assert Accumulate(a, 0) == MergeScreen(EmptyHashes(), a(0)[1..]);
      assert Accumulate(b, 0) == MergeScreen(EmptyHashes(), b(0)[1..]);
    }
  }
}
