/** Reading one store row of the list. A row is the sequence of texts of its
    text labels, in display order; the automation driver's element handles
    are replaced by those texts. */
module StoreInfo {
  import opened Results

  /** The text labels of one list element. */
  type Item = seq<string>

  /** The list elements visible at one moment. */
  type Screen = seq<Item>

  /** A row with fewer labels is only partly on screen and is skipped. */
  const MinLabels: nat := 6

  /** What the Python script reads from a row. */
  datatype StoreRow = StoreRow(name: string, sales: string, orders: string)

  /** What the JavaScript script reads from a row: no order count. */
  datatype SalesRow = SalesRow(name: string, sales: string)

  /** `get_data_from_store_info`: the first label is the name, the
      second-to-last the sales text and the last the order count. */
  function GetDataFromStoreInfo(labels: Item): (r: Option<StoreRow>)
    ensures r.None? <==> |labels| < MinLabels
    ensures r.Some? ==> labels == [r.value.name] + labels[1..|labels| - 2] + [r.value.sales, r.value.orders]
  {
    if |labels| < MinLabels then None
    else Some(StoreRow(labels[0], labels[|labels| - 2], labels[|labels| - 1]))
  }

  /** `getDataFromStoreInfo`: the same rule, keeping only name and sales. */
  function GetDataFromStoreInfoJs(labels: Item): (r: Option<SalesRow>)
    ensures r.None? <==> |labels| < MinLabels
    ensures r.Some? ==> labels == [r.value.name] + labels[1..|labels| - 2] + [r.value.sales, labels[|labels| - 1]]
  {
    if |labels| < MinLabels then None
    else Some(SalesRow(labels[0], labels[|labels| - 2]))
  }

  /** The labels of a fully rendered row: its name, the labels the scripts
      ignore, its sales text and its order count. */
  function RenderRow(row: StoreRow, middle: seq<string>): (labels: Item)
    ensures |labels| == |middle| + 3
  {
    [row.name] + middle + [row.sales, row.orders]
  }

  /** Reading a rendered row with at least three ignored labels gives back
      exactly the row that was rendered. */
  lemma ReadRendered(row: StoreRow, middle: seq<string>)
    requires |middle| >= MinLabels - 3
    ensures GetDataFromStoreInfo(RenderRow(row, middle)) == Some(row)
  {
    var labels := RenderRow(row, middle);
    assert labels[0] == row.name;
    assert labels[|labels| - 2] == row.sales && labels[|labels| - 1] == row.orders;
  }

  /** Conversely, every row that is read is the rendering of what was read. */
  lemma RenderRead(labels: Item)
    requires |labels| >= MinLabels
    ensures GetDataFromStoreInfo(labels).Some?
    ensures RenderRow(GetDataFromStoreInfo(labels).value, labels[1..|labels| - 2]) == labels
  {
  }

  /** Both scripts skip the same rows and agree on name and sales. */
  lemma ScriptsAgree(labels: Item)
    ensures GetDataFromStoreInfoJs(labels) == ToSalesRow(GetDataFromStoreInfo(labels))
  {
  }

  function ToSalesRow(r: Option<StoreRow>): Option<SalesRow> {
    match r
    case None => None
    case Some(row) => Some(SalesRow(row.name, row.sales))
  }

  /** The row has the given name once read. */
  predicate NamedRow(labels: Item, name: string) {
    |labels| >= MinLabels && labels[0] == name
  }

  /** The name a row is read under, if it is read. */
  function RowNames(labels: Item): set<string> {
    if |labels| >= MinLabels then {labels[0]} else {}
  }

  /** The names of all rows of a screen that are read. */
  function NamesIn(screen: Screen): set<string> {
    if |screen| == 0 then {}
    else NamesIn(screen[..|screen| - 1]) + RowNames(screen[|screen| - 1])
  }

  /** A name is in `NamesIn(screen)` exactly when some row of the screen is
      read under it. */
  lemma {:induction false} NamesInMeaning(screen: Screen, n: string)
    ensures n in NamesIn(screen) <==> exists i :: 0 <= i < |screen| && NamedRow(screen[i], n)
    decreases |screen|
  {
    if |screen| > 0 {
      var prefix := screen[..|screen| - 1];
      NamesInMeaning(prefix, n);
      if exists i :: 0 <= i < |prefix| && NamedRow(prefix[i], n) {
        var i :| 0 <= i < |prefix| && NamedRow(prefix[i], n);
        assert prefix[i] == screen[i];
      }
      if exists i :: 0 <= i < |screen| && NamedRow(screen[i], n) {
        var i :| 0 <= i < |screen| && NamedRow(screen[i], n);
        if i < |prefix| {
          assert prefix[i] == screen[i];
        }
      }
    }
  }

  /** Dropping rows can only lose names. */
  lemma NamesInSuffix(screen: Screen, k: nat)
    requires k <= |screen|
    ensures NamesIn(screen[k..]) <= NamesIn(screen)
  {
    var suffix := screen[k..];
    forall n | n in NamesIn(suffix)
      ensures n in NamesIn(screen)
    {
      NamesInMeaning(suffix, n);
      NamesInMeaning(screen, n);
      var i :| 0 <= i < |suffix| && NamedRow(suffix[i], n);
      assert suffix[i] == screen[k + i];
    }
  }
}
