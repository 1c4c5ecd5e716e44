/** The data processing of the JavaScript script `scraping.js`: reading the
    store rows of each screen into the `Map` `sales_hash`, scrolling until a
    scroll brings no new store, and turning the `Map` into a plain object for
    `JSON.stringify`.

    The device is an oracle of the same type as for the Python script:
    `screens(k)` is the list of elements visible after `k` scrolls. */
module JsScraping {
  import opened OrderedMaps
  import opened StoreInfo
  import opened StopRules
  import PyScraping

  /** The array left by `all_stores_displayed.shift()`: without its first
      element, and still empty when it was empty. */
  function DropFirst<T>(s: seq<T>): (r: seq<T>)
    ensures |s| == 0 ==> r == []
    ensures |s| > 0 ==> [s[0]] + r == s
  {
    if |s| == 0 then [] else s[1..]
  }

  /** The body of the `for (store_element of ...)` loops: a row that is read
      is written under its name. */
  function MergeItemJs(m: OrderedMap<string>, labels: Item): OrderedMap<string> {
    match GetDataFromStoreInfoJs(labels)
    case None => m
    case Some(row) => Put(m, row.name, row.sales)
  }

  /** A row adds its name, if it is read, at the end of the key list and
      moves no name already there; the written name then holds the row's
      sales text. */
  lemma MergeItemJsGrows(m: OrderedMap<string>, labels: Item)
    ensures var r := MergeItemJs(m, labels);
            && (m.Valid() ==> r.Valid())
            && m.keys <= r.keys
            && r.KeySet() == m.KeySet() + RowNames(labels)
            && (|labels| >= MinLabels ==> r.values[labels[0]] == labels[|labels| - 2])
  {
  }

  /** One pass over the rows of a screen, first to last. */
  function MergeScreenJs(m: OrderedMap<string>, screen: Screen): OrderedMap<string>
    decreases |screen|
  {
    if |screen| == 0 then m
    else MergeItemJs(MergeScreenJs(m, screen[..|screen| - 1]), screen[|screen| - 1])
  }

  /** A pass adds exactly the names of the rows read, appending new ones and
      moving none. */
  lemma {:induction false} MergeScreenJsGrows(m: OrderedMap<string>, screen: Screen)
    ensures var r := MergeScreenJs(m, screen);
            && (m.Valid() ==> r.Valid())
            && m.keys <= r.keys
            && r.KeySet() == m.KeySet() + NamesIn(screen)
    decreases |screen|
  {
    if |screen| > 0 {
      var prefix := screen[..|screen| - 1];
      MergeScreenJsGrows(m, prefix);
      MergeItemJsGrows(MergeScreenJs(m, prefix), screen[|screen| - 1]);
    }
  }

  /** `sales_hash` after the initial screen and `n` scrolls. The initial
      screen loses its first element to `shift()`; later screens are read
      whole. */
  function AccumulateJs(screens: nat -> Screen, n: nat): OrderedMap<string>
    decreases n
  {
    if n == 0 then MergeScreenJs(Empty(), DropFirst(screens(0)))
    else MergeScreenJs(AccumulateJs(screens, n - 1), screens(n))
  }

  /** The trace of `sales_hash.size` the stopping rule looks at. */
  function SizesJs(screens: nat -> Screen): nat -> nat {
    n => AccumulateJs(screens, n).Size()
  }

  /** The map stays well formed, holds only names some screen shows, and
      never loses or moves a name. */
  lemma {:induction false} AccumulateJsGrows(screens: nat -> Screen, n: nat)
    ensures AccumulateJs(screens, n).Valid()
    ensures n == 0 ==> AccumulateJs(screens, n).KeySet() == NamesIn(DropFirst(screens(0)))
    ensures n > 0 ==> && AccumulateJs(screens, n - 1).keys <= AccumulateJs(screens, n).keys
                      && AccumulateJs(screens, n).KeySet() == AccumulateJs(screens, n - 1).KeySet() + NamesIn(screens(n))
  {
    if n == 0 {
      MergeScreenJsGrows(Empty(), DropFirst(screens(0)));
    } else {
      AccumulateJsGrows(screens, n - 1);
      MergeScreenJsGrows(AccumulateJs(screens, n - 1), screens(n));
    }
  }

  /** Every screen shows only names of the set `universe`. */
  ghost predicate ShowsOnly(screens: nat -> Screen, universe: set<string>) {
    forall k :: NamesIn(screens(k)) <= universe
  }

  /** When every screen shows only names of a set `universe`, so does the
      map. */
  lemma {:induction false} AccumulateJsNames(screens: nat -> Screen, n: nat, universe: set<string>)
    requires ShowsOnly(screens, universe)
    ensures AccumulateJs(screens, n).KeySet() <= universe
  {
    AccumulateJsGrows(screens, n);
    if n == 0 {
      NamesInSuffix(screens(0), if |screens(0)| == 0 then 0 else 1);
      assert NamesIn(screens(0)) <= universe;
    } else {
      AccumulateJsNames(screens, n - 1, universe);
      assert NamesIn(screens(n)) <= universe;
    }
  }

  /** ... and so it has at most `|universe|` entries. */
  lemma AccumulateJsBounded(screens: nat -> Screen, n: nat, universe: set<string>)
    requires ShowsOnly(screens, universe)
    ensures AccumulateJs(screens, n).Size() <= |universe|
  {
    AccumulateJsGrows(screens, n);
    AccumulateJsNames(screens, n, universe);
    SizeBound(AccumulateJs(screens, n), universe);
  }

  /** How the map after `n` scrolls is obtained, and its size in the trace. */
  lemma AccumulateJsStep(screens: nat -> Screen, n: nat)
    ensures n == 0 ==> AccumulateJs(screens, n) == MergeScreenJs(Empty(), DropFirst(screens(0)))
    ensures n > 0 ==> AccumulateJs(screens, n) == MergeScreenJs(AccumulateJs(screens, n - 1), screens(n))
    ensures SizesJs(screens)(n) == AccumulateJs(screens, n).Size()
    ensures n > 0 ==> SizesJs(screens)(n - 1) <= SizesJs(screens)(n)
  {
    if n > 0 {
      AccumulateJsGrows(screens, n);
      assert |AccumulateJs(screens, n - 1).keys| <= |AccumulateJs(screens, n).keys|;
    }
  }

  /** Lines 40-50: read the initial screen without its first element. */
  method ReadInitialJs(screens: nat -> Screen) returns (salesHash: OrderedMap<string>)
    ensures salesHash == AccumulateJs(screens, 0)
    ensures salesHash.Size() == SizesJs(screens)(0)
  {
    var allStoresDisplayed := DropFirst(screens(0));
    salesHash := ReadScreenJs(Empty(), allStoresDisplayed);
    AccumulateJsStep(screens, 0);
  }

  /** One `for (store_element of ...)` loop. */
  method ReadScreenJs(m: OrderedMap<string>, screen: Screen) returns (r: OrderedMap<string>)
    ensures r == MergeScreenJs(m, screen)
  {
    r := m;
    for i := 0 to |screen|
      invariant r == MergeScreenJs(m, screen[..i])
    {
      assert screen[..i + 1][..i] == screen[..i];
      r := MergeItemJs(r, screen[i]);
    }
    assert screen[..|screen|] == screen;
  }

  /** Lines 38-75 of `main`: read the initial screen without its first
      element, then scroll and read until a scroll adds no name. The source
      loop is `while (true)`: it ends exactly on devices where some scroll
      adds no name (`JsStopsAtStalls`), which is what is required here. */
  method HarvestJs(screens: nat -> Screen) returns (salesHash: OrderedMap<string>, scrolls: nat)
    requires Stalls(SizesJs(screens))
    ensures salesHash == AccumulateJs(screens, scrolls)
    ensures JsStopsAt(SizesJs(screens), scrolls)
  {
    ghost var c := SizesJs(screens);
    ghost var stall :| stall > 0 && !Added(c, stall);
    salesHash := ReadInitialJs(screens);
    var prevTotalCount := salesHash.Size();
    scrolls := 0;
    while true
      invariant salesHash == AccumulateJs(screens, scrolls)
      invariant prevTotalCount == salesHash.Size() == c(scrolls)
      invariant AddedBefore(c, scrolls + 1)
      invariant scrolls < stall
      decreases stall - scrolls
    {
      scrolls := scrolls + 1;
      salesHash := ReadScreenJs(salesHash, screens(scrolls));
      AccumulateJsStep(screens, scrolls);
      if salesHash.Size() == prevTotalCount {
        break;
      }
      AddedStep(c, scrolls - 1);
      assert Added(c, scrolls);
      prevTotalCount := salesHash.Size();
    }
  }

  /** When every screen shows only names of a finite set, some scroll adds
      no name, so the harvest ends. */
  lemma UniverseStalls(screens: nat -> Screen, universe: set<string>)
    requires ShowsOnly(screens, universe)
    ensures Stalls(SizesJs(screens))
  {
    var c := SizesJs(screens);
    var n := |universe| + 1;
    if !Stalls(c) {
      assert AddedBefore(c, n + 1);
      GrowsByStep(c, n + 1, n);
      AccumulateJsBounded(screens, n, universe);
      AccumulateJsStep(screens, n);
      assert false;
    }
  }

  /** A device that shows no row at all stalls at the first scroll, so the
      requirement of `HarvestJs` can be met. */
  lemma BlankDeviceStalls()
    ensures Stalls(SizesJs(_ => []))
  {
    var screens: nat -> Screen := _ => [];
    AccumulateJsStep(screens, 0);
    AccumulateJsStep(screens, 1);
    assert !Added(SizesJs(screens), 1);
  }

  /** The harvest scrolls at most once more than the number of names still
      unknown after the initial screen. */
  lemma HarvestJsBound(screens: nat -> Screen, universe: set<string>, k: nat)
    requires ShowsOnly(screens, universe)
    requires JsStopsAt(SizesJs(screens), k)
    ensures SizesJs(screens)(0) + k <= |universe| + 1
  {
    AccumulateJsBounded(screens, k, universe);
    AccumulateJsStep(screens, k);
    JsStopsAtBound(SizesJs(screens), k, |universe|);
  }

  /** One row changes the JavaScript map as it changes the Python sales map. */
  lemma MergeItemAgrees(h: PyScraping.Hashes, labels: Item)
    ensures MergeItemJs(h.sales, labels) == PyScraping.MergeItem(h, labels).sales
  {
    ScriptsAgree(labels);
  }

  lemma {:induction false} MergeScreenAgrees(h: PyScraping.Hashes, screen: Screen)
    ensures MergeScreenJs(h.sales, screen) == PyScraping.MergeScreen(h, screen).sales
    decreases |screen|
  {
    if |screen| > 0 {
      var prefix := screen[..|screen| - 1];
      MergeScreenAgrees(h, prefix);
      MergeItemAgrees(PyScraping.MergeScreen(h, prefix), screen[|screen| - 1]);
    }
  }

  /** Both scripts read the same rows into the same sales map: for one
      sequence of screens shown to both, whose initial screen is not empty,
      the JavaScript `sales_hash` is the Python `sales_hash` after every
      number of scrolls. */
  lemma {:induction false} AccumulateAgrees(screens: nat -> Screen, n: nat)
    requires |screens(0)| > 0
    ensures AccumulateJs(screens, n) == PyScraping.Accumulate(screens, n).sales
  {
    if n == 0 {
      MergeScreenAgrees(PyScraping.EmptyHashes(), screens(0)[1..]);
    } else {
      AccumulateAgrees(screens, n - 1);
      MergeScreenAgrees(PyScraping.Accumulate(screens, n - 1), screens(n));
    }
  }

  /** A repeated name is overwritten: after a pass a name holds the sales
      text of the last row read under it. */
  lemma LastReadWinsJs(m: OrderedMap<string>, screen: Screen, i: nat)
    requires i < |screen| && |screen[i]| >= MinLabels
    requires forall j :: i < j < |screen| ==> !NamedRow(screen[j], screen[i][0])
    ensures var r := MergeScreenJs(m, screen);
            && screen[i][0] in r.values
            && r.values[screen[i][0]] == screen[i][|screen[i]| - 2]
  {
    var h := PyScraping.Hashes(m, m);
    MergeScreenAgrees(h, screen);
    PyScraping.LastReadWins(h, screen, i);
  }

  /** Hence, for one sequence of screens shown to both, the Python script
      never scrolls more often than the JavaScript script: it stops at the
      same stall unless the total is reached first. */
  lemma PyStopsNoLater(screens: nat -> Screen, total: nat, kPy: nat, kJs: nat)
    requires |screens(0)| > 0
    requires PyStopsAt(PyScraping.Sizes(screens), total, kPy)
    requires JsStopsAt(SizesJs(screens), kJs)
    ensures kPy <= kJs
  {
    var c := PyScraping.Sizes(screens);
    forall i: nat
      ensures SizesJs(screens)(i) == c(i)
    {
      AccumulateAgrees(screens, i);
    }
    JsStopsAtSameTrace(SizesJs(screens), c, kJs);
    PyNoLaterThanJs(c, total, kPy, kJs);
  }

  /** The values `JSON.stringify` meets while serialising `sales_hash`. */
  datatype JsValue =
    | JsMap(entries: OrderedMap<string>)
    | JsObject(props: map<string, string>)
    | JsString(text: string)
    | JsUndefined

  /** The one name `obj[k] = v` does not store on a plain object: it goes to
      the inherited `__proto__` setter, which ignores a string value. */
  const ProtoKey: string := "__proto__"

  /** `replacer`: a `Map` becomes a plain object with the same key/value
      pairs, built by iterating the entries in insertion order, except that
      an entry named `__proto__` creates no property; any other value is
      returned unchanged. The `key` argument is not used. */
  method Replacer(key: string, value: JsValue) returns (r: JsValue)
    requires value.JsMap? ==> value.entries.Valid()
    ensures !value.JsMap? ==> r == value
    ensures value.JsMap? ==> && r.JsObject?
                             && r.props.Keys == value.entries.KeySet() - {ProtoKey}
                             && forall k :: k in r.props ==> r.props[k] == value.entries.values[k]
  {
    if !value.JsMap? {
      return value;
    }
    var m := value.entries;
    var obj: map<string, string> := map[];
    for i := 0 to |m.keys|
      invariant obj.Keys == (set j | 0 <= j < i :: m.keys[j]) - {ProtoKey}
      invariant forall k :: k in obj ==> k in m.values && obj[k] == m.values[k]
    {
      if m.keys[i] != ProtoKey {
        obj := obj[m.keys[i] := m.values[m.keys[i]]];
      }
    }
    assert obj.Keys == m.KeySet() - {ProtoKey} by {
      forall k | k in m.values && k != ProtoKey
        ensures k in obj
      {
        var j :| 0 <= j < |m.keys| && m.keys[j] == k;
      }
    }
    return JsObject(obj);
  }
}
