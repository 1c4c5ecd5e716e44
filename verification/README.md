# Uber Eats Manager store scraping, modelled in Dafny

The repository holds two scripts, `python/scraping.py` and
`webdriverio/scraping.js`. Each one drives the Uber Eats Manager Android app
through Appium, walks the "Stores" list one screen at a time, and collects
each store's sales figure. The Python script also collects each store's order
count. This project models the data processing of both scripts, with the
automation driver replaced by plain values:

- A list element (an *item*) is the sequence of texts of its text labels.
- A screen is a sequence of items.
- The device is an oracle `screens: nat -> Screen`. `screens(k)` is what is
  visible after `k` scrolls; `screens(0)` is what is visible on arrival.
- A Python `dict` and a JavaScript `Map` are both an insertion-ordered map
  (`OrderedMaps.OrderedMap`). Writing an existing key replaces its value in
  place, and writing a new key appends it. The size is the number of keys.

The modules follow the scripts:

| file | module | contents |
|---|---|---|
| `results.dfy` | `Results` | `Option`, `Result` and the errors the Python script can raise |
| `ordered_maps.dfy` | `OrderedMaps` | insertion-ordered maps |
| `decimal.dfy` | `Decimal` | digit strings, `int(text)` and its inverse |
| `labels.dfy` | `Labels` | the total-count parse and the sales parse |
| `store_info.dfy` | `StoreInfo` | reading one store row (`get_data_from_store_info`, `getDataFromStoreInfo`) |
| `stop_rules.dfy` | `StopRules` | the two loops' stopping rules, stated over the trace of map sizes |
| `py_scraping.dfy` | `PyScraping` | the Python harvest, `create_api_post_data`, and one whole cycle |
| `js_scraping.dfy` | `JsScraping` | the JavaScript harvest, `replacer`, and how the two harvests relate |

Differences between the two scripts that the model keeps:

- On an empty initial screen, Python's `pop(0)` raises. The model returns
  `Failure(PopFromEmptyList)`. JavaScript's `shift()` leaves the array
  empty (`DropFirst`).
- The Python loop also stops once the map holds `total_count` names. The
  JavaScript loop stops only when a scroll adds no name.
- The Python script evaluates each record's fields in the order the dict
  display lists them. So a bad sales text is reported before a missing
  order count, and a missing order count before a bad one.

The total bounds what is collected in neither direction. A scroll that adds
no name stops the loop below it (`PyScraping.StallScenario`). One scroll can
add several names, so the Python loop can also stop with more names than
`total_count` (`PyScraping.OvershootScenario`). The model follows the code in
this.

## Model

| member | source | states |
|---|---|---|
| `OrderedMaps.Empty` | uber_eats_manager/python/scraping.py:35-37 | `{}` and `new Map()` (scraping.js:38): a valid map with no entries. |
| `OrderedMaps.Put` | uber_eats_manager/python/scraping.py:47-48 | Writing a key keeps the map well formed. Afterwards the key holds the new value and every other key keeps its value. An existing key keeps its position and a new key goes last. The size grows by one exactly when the key is new. |
| `OrderedMaps.SameSizeSameKeys` | uber_eats_manager/python/scraping.py:71 | When a map only grew, an unchanged size means that no new name was added. |
| `PyScraping.StallMeansNoNewName` | uber_eats_manager/python/scraping.py:66-73 | After a scroll, `len(sales_hash)` is unchanged exactly when every name the new screen shows was already known. |
| `OrderedMaps.SizeBound` | uber_eats_manager/webdriverio/scraping.js:57-75 | A map whose names all lie in a finite set has at most as many entries as the set. This bounds the JavaScript loop. |
| `Decimal.ParseInt` | uber_eats_manager/python/scraping.py:147 | `int(text)` succeeds exactly on a non-empty string of ASCII digits, of any length. Otherwise it fails, naming the text. |
| `Decimal.ParseShow` | uber_eats_manager/python/scraping.py:147 | Parsing the decimal text of any number gives the number back. |
| `Decimal.ShowParse` | uber_eats_manager/python/scraping.py:147 | A digit string with no leading zero is the text of its own value, so parsing and showing are inverse on canonical texts. |
| `Decimal.LeadingZero` | uber_eats_manager/python/scraping.py:147 | A leading zero does not change the value: `int("007") == 7`. |
| `Labels.ParseTotalCount` | uber_eats_manager/python/scraping.py:111 | A label with no digit at all fails, as indexing the empty `findall` result raises. Otherwise the result is the value of the first maximal run of digits. |
| `Labels.FirstDigitRunUnique` | uber_eats_manager/python/scraping.py:111 | A text has at most one first maximal run of digits. |
| `Labels.TotalCountExample` | uber_eats_manager/python/scraping.py:111 | The label "12 stores" gives the total 12. |
| `Labels.StripYenAndCommas` | uber_eats_manager/python/scraping.py:146 | The result contains no yen sign and no comma, and a text with neither is left unchanged. |
| `Labels.StripChar` | uber_eats_manager/python/scraping.py:146 | A single yen sign or comma is deleted, and any other single character is kept. With `Labels.StripConcat` this fixes the result on every text: the other characters are kept, in order. |
| `Labels.StripConcat` | uber_eats_manager/python/scraping.py:146 | Removing the characters works one character at a time, so it distributes over concatenation. |
| `Labels.StripIdempotent` | uber_eats_manager/python/scraping.py:146 | Removing twice is the same as removing once. |
| `Labels.ParseSales` | uber_eats_manager/python/scraping.py:146 | A sales text converts exactly when what is left after removing yen signs and commas is a non-empty digit string. |
| `Labels.SalesRoundTrip` | uber_eats_manager/python/scraping.py:34 | Any amount displayed as the app shows it (a yen sign, digits grouped by three with commas) converts back to that amount. |
| `Labels.SalesExample2000` | uber_eats_manager/python/scraping.py:34 | "¥2,000" converts to 2000. |
| `Labels.SalesExample100` | uber_eats_manager/python/scraping.py:34 | "¥100", the other sample sales value, converts to 100. |
| `Labels.SalesExampleZero` | uber_eats_manager/python/scraping.py:146 | "¥0" converts to 0. |
| `Labels.SalesExampleEmpty` | uber_eats_manager/python/scraping.py:146 | A yen sign alone leaves nothing to convert, and the conversion fails. |
| `StoreInfo.GetDataFromStoreInfo` | uber_eats_manager/python/scraping.py:116-124 | A row with fewer than 6 labels gives nothing. Any other row gives its first, second-to-last and last labels. |
| `StoreInfo.ReadRendered` | uber_eats_manager/python/scraping.py:121-124 | Reading a rendered row with at least three ignored labels gives back exactly the name, sales and order count that were rendered. |
| `StoreInfo.RenderRead` | uber_eats_manager/python/scraping.py:121-124 | Every row that is read is the rendering of what was read from it. |
| `StoreInfo.GetDataFromStoreInfoJs` | uber_eats_manager/webdriverio/scraping.js:95-104 | A row with fewer than 6 labels gives nothing. Any other row gives its first and second-to-last labels, and no order count. |
| `StoreInfo.ScriptsAgree` | uber_eats_manager/webdriverio/scraping.js:95-104 | The two scripts skip the same rows, and on the rows they read they agree on name and sales. |
| `StoreInfo.NamesInMeaning` | uber_eats_manager/python/scraping.py:43-48 | A name is collected from a screen exactly when some row of the screen is read under it. |
| `StopRules.PyStopsAtUnique` | uber_eats_manager/python/scraping.py:53-75 | The number of scrolls the Python loop makes is determined by the size trace and the total. |
| `StopRules.PyStopsAtBound` | uber_eats_manager/python/scraping.py:53-75 | The Python loop scrolls at most `max(0, total - initial size)` times. |
| `StopRules.JsStopsAtBound` | uber_eats_manager/webdriverio/scraping.js:55-75 | On a size trace that never exceeds a bound, the JavaScript loop scrolls at most `bound - initial size + 1` times, as every scroll but the last adds a name. |
| `StopRules.JsStopsAtUnique` | uber_eats_manager/webdriverio/scraping.js:55-75 | The JavaScript loop stops at the first scroll that adds nothing, so its stopping point is determined by the size trace. |
| `StopRules.PyNoLaterThanJs` | uber_eats_manager/python/scraping.py:55-73 | On the same size trace, the Python loop never scrolls more often than the JavaScript loop. |
| `PyScraping.MergeItemGrows` | uber_eats_manager/python/scraping.py:43-48 | A row that is read writes its name into both maps. The two maps keep identical key lists, no name moves, and the key sets grow by exactly that name. |
| `PyScraping.MergeItem` | uber_eats_manager/python/scraping.py:44-48 | Reading one row into both maps. It has no contract of its own; its facts are `PyScraping.MergeItemGrows`, `PyScraping.MergeItemOther` and `JsScraping.MergeItemAgrees`. |
| `PyScraping.MergeItemOther` | uber_eats_manager/python/scraping.py:59-64 | A row read under another name leaves a name's entries in both maps alone. |
| `PyScraping.MergeScreenGrows` | uber_eats_manager/python/scraping.py:59-64 | A pass over a screen keeps the two maps parallel, moves no name, and adds exactly the names of the rows read. |
| `PyScraping.MergeScreen` | uber_eats_manager/python/scraping.py:59-64 | One pass of the `for` loop over a screen. It has no contract of its own; its facts are `PyScraping.MergeScreenGrows`, `PyScraping.LastReadWins`, `PyScraping.UnreadKeepsValue` and `PyScraping.ReadScreen`. |
| `PyScraping.LastReadWins` | uber_eats_manager/python/scraping.py:59-64 | A later read overwrites an earlier one: a name holds the sales and order texts of the last row read under it. |
| `PyScraping.UnreadKeepsValue` | uber_eats_manager/python/scraping.py:59-64 | A name that no row of the screen carries keeps its entries. |
| `PyScraping.AccumulateParallel` | uber_eats_manager/python/scraping.py:35-64 | Throughout the harvest, `sales_hash` and `orders_hash` are well formed and list the same names in the same order. |
| `PyScraping.Accumulate` | uber_eats_manager/python/scraping.py:39-64 | The maps after the initial read and `n` scrolls. It has no contract of its own; its facts are `PyScraping.AccumulateParallel`, `PyScraping.AccumulateReads`, `PyScraping.AccumulateGrows` and `PyScraping.AccumulateStep`. |
| `PyScraping.AccumulateReads` | uber_eats_manager/python/scraping.py:39-59 | The initial screen is read without its first element, and a screen after a scroll is read whole. |
| `PyScraping.AccumulateGrows` | uber_eats_manager/python/scraping.py:53-75 | Names already collected are never lost or moved, and the size never decreases. |
| `PyScraping.FirstItemIgnored` | uber_eats_manager/python/scraping.py:39-41 | Only the first element of the initial screen is ignored: devices that differ in nothing else give the same maps. |
| `PyScraping.ReadScreen` | uber_eats_manager/python/scraping.py:59-64 | The `for` loop over a screen computes the pass over that screen. |
| `PyScraping.ReadInitial` | uber_eats_manager/python/scraping.py:39-48 | An empty initial screen fails with `PopFromEmptyList`, as `pop(0)` raises. Otherwise the first element is dropped, the rest is read, and the maps are those of the harvest before any scroll. |
| `PyScraping.Harvest` | uber_eats_manager/python/scraping.py:39-75 | An empty initial screen fails with `PopFromEmptyList`. Otherwise the maps are those after the scrolls made. The number of scrolls satisfies the Python stopping rule and is at most `max(0, total - initial size)`. |
| `PyScraping.StallScenario` | uber_eats_manager/python/scraping.py:66-73 | With a total of 12 and sizes 5, 9, 9, the loop stops after the second scroll, and at no other scroll. |
| `PyScraping.OvershootScenario` | uber_eats_manager/python/scraping.py:55 | A scroll that brings several names at once can take the map past the total, and the loop then stops. |
| `PyScraping.RecordFor` | uber_eats_manager/python/scraping.py:144-148 | A store's record exists exactly when its sales text converts, its name has an order count, and that count converts. The record carries the name and both converted values. |
| `PyScraping.RecordsFor` | uber_eats_manager/python/scraping.py:143-149 | The records of a list of names succeed exactly when each name's record succeeds. There is then one record per name, in order. |
| `PyScraping.FirstFailureReported` | uber_eats_manager/python/scraping.py:143-149 | When the records fail, the error reported is that of the first name whose record fails. |
| `PyScraping.CreateApiPostData` | uber_eats_manager/python/scraping.py:140-149 | There is one record per key of `sales_hash`, in key order. Each record has the key as its name, the converted sales text and the converted order count. The result succeeds exactly when every key's record does. |
| `PyScraping.ExportNamesDistinct` | uber_eats_manager/python/scraping.py:143 | Each store is posted once. |
| `PyScraping.ExportOfHarvest` | uber_eats_manager/python/scraping.py:140-149 | On maps built by the harvest no order count is missing. The export succeeds exactly when every sales text and every order count converts. |
| `PyScraping.ExportExample` | uber_eats_manager/python/scraping.py:141 | `{"A": "¥100"}` with `{"A": "3"}` gives the single record `("A", 100, 3)`. |
| `PyScraping.Scrape` | uber_eats_manager/python/scraping.py:33-85 | A total label with no digit fails first, then an empty initial screen fails. Otherwise the result is the export of the maps after the scrolls the stopping rule allows. |
| `JsScraping.DropFirst` | uber_eats_manager/webdriverio/scraping.js:40-42 | `shift()` removes the first element, and leaves an empty array empty. |
| `JsScraping.MergeItemJsGrows` | uber_eats_manager/webdriverio/scraping.js:44-50 | A row that is read writes its sales text under its name. The map stays well formed, no name moves, and the key set grows by exactly that name. |
| `JsScraping.MergeItemJs` | uber_eats_manager/webdriverio/scraping.js:61-65 | Reading one row into the map. It has no contract of its own; its facts are `JsScraping.MergeItemJsGrows` and `JsScraping.MergeItemAgrees`. |
| `JsScraping.MergeScreenJsGrows` | uber_eats_manager/webdriverio/scraping.js:60-66 | A pass over a screen moves no name and adds exactly the names of the rows read. |
| `JsScraping.MergeScreenJs` | uber_eats_manager/webdriverio/scraping.js:60-66 | One pass of the `for...of` loop over a screen. It has no contract of its own; its facts are `JsScraping.MergeScreenJsGrows`, `JsScraping.LastReadWinsJs` and `JsScraping.ReadScreenJs`. |
| `JsScraping.AccumulateJsGrows` | uber_eats_manager/webdriverio/scraping.js:38-66 | `sales_hash` stays well formed. It starts with the names of the initial screen minus its first element, and every scroll adds that screen's names without moving any. |
| `JsScraping.AccumulateJs` | uber_eats_manager/webdriverio/scraping.js:38-66 | The map after the initial read and `n` scrolls. It has no contract of its own; its facts are `JsScraping.AccumulateJsGrows`, `JsScraping.AccumulateJsStep` and `JsScraping.AccumulateAgrees`. |
| `JsScraping.AccumulateJsBounded` | uber_eats_manager/webdriverio/scraping.js:57-75 | When every screen shows only names of a finite set, the map never has more entries than the set. |
| `JsScraping.ReadScreenJs` | uber_eats_manager/webdriverio/scraping.js:60-66 | The `for` loop over a screen computes the pass over that screen. |
| `JsScraping.ReadInitialJs` | uber_eats_manager/webdriverio/scraping.js:39-50 | The first element of the initial screen is dropped (nothing, if the screen is empty) and the rest is read. The map is the one before any scroll, and its size is the first entry of the size trace. |
| `JsScraping.HarvestJs` | uber_eats_manager/webdriverio/scraping.js:38-75 | On a device where some scroll adds no name, the map is the one after the scrolls made, and the loop stops exactly at the first scroll that adds no name. |
| `StopRules.JsStopsAtStalls` | uber_eats_manager/webdriverio/scraping.js:55-75 | The JavaScript loop can stop only on a device where some scroll adds no name. So the requirement of `JsScraping.HarvestJs` excludes only devices on which the source loop never ends. |
| `JsScraping.BlankDeviceStalls` | uber_eats_manager/webdriverio/scraping.js:55-75 | On a device that shows no row, the first scroll adds no name. So the requirement of `JsScraping.HarvestJs` can be met. |
| `JsScraping.UniverseStalls` | uber_eats_manager/webdriverio/scraping.js:55-75 | When every screen shows only names of a finite set, some scroll adds no name, so the loop ends. |
| `JsScraping.HarvestJsBound` | uber_eats_manager/webdriverio/scraping.js:55-75 | When every screen shows only names of a finite set, the loop scrolls at most once more than the number of names of that set still unknown after the initial screen. |
| `JsScraping.LastReadWinsJs` | uber_eats_manager/webdriverio/scraping.js:60-66 | `set` overwrites: a name holds the sales text of the last row read under it. |
| `JsScraping.AccumulateAgrees` | uber_eats_manager/webdriverio/scraping.js:38-66 | For one sequence of screens shown to both scripts, whose initial screen is not empty, the JavaScript `sales_hash` after `n` scrolls equals the Python `sales_hash` after `n` scrolls. |
| `JsScraping.MergeItemAgrees` | uber_eats_manager/webdriverio/scraping.js:61-65 | Reading one row with the JavaScript script changes the sales map exactly as the Python script changes its sales map. |
| `JsScraping.MergeScreenAgrees` | uber_eats_manager/webdriverio/scraping.js:60-66 | Reading a whole screen changes the two sales maps alike. |
| `JsScraping.PyStopsNoLater` | uber_eats_manager/webdriverio/scraping.js:68-72 | For one sequence of screens shown to both scripts, the Python script never scrolls more often than the JavaScript script. |
| `JsScraping.Replacer` | uber_eats_manager/webdriverio/scraping.js:115-124 | A `Map` becomes a plain object with exactly the same names, except `__proto__`, and under each name the same value. `obj[k] = v` with `k` equal to `__proto__` calls the inherited setter, which ignores a string and creates no property. Any other value is returned unchanged. |

## Left out

- The Appium session, its capabilities and its element lookups are foreign calls. This includes the XPath and accessibility-id queries and the dismissal of the "System UI isn't responding" dialog. Items are modelled as their label texts, and the device as the oracle `screens`.
- Scrolling is left out: `scroll_down` and `get_window_height` scale the window height with floating point, and `scroll_down` and `scrollDown` send touch gestures (`scrollDown` swipes between the fixed points (0, 1500) and (0, 500)). Their only effect in the model is moving from `screens(k)` to `screens(k + 1)`.
- `print_progress`, timing and printing are only logging.
- Sending the data is left out: the HTTP POST, the response, `JSON.stringify` itself and `console.log`. `JsScraping.Replacer` models the replacer that `JSON.stringify` is given.
- The exception handler with `finally: quit()` and the endless `while True` / `sleep(10)` loop are process plumbing. One cycle is `PyScraping.Scrape`, and the exceptions it can raise are `Failure` values.
- `scrollDown(client)` is not awaited in the JavaScript loop, so the scroll races the next lookup. The model runs the loop sequentially.
- Decimal.ParseInt: accepts only ASCII digits. Python's `int()` also accepts surrounding whitespace, a sign, underscores and other Unicode digits, and `\d` also matches Unicode digits. A sales text or order count that uses those is a failure in the model; for the total count see the next line. In the other direction, the model has no digit limit: recent CPython releases (3.11 and later, and the 3.7.14, 3.8.14, 3.9.14 and 3.10.7 security releases) reject a decimal text of more than 4300 digits (`sys.get_int_max_str_digits()`), and the model converts it. That limit depends on the interpreter version and its configuration.
- JsScraping.Replacer: the object is modelled as a map from names to values. JavaScript orders integer-like property names before the others, and that order is not modelled. The `key` argument is unused in the source as in the model.
- Labels.ParseTotalCount: only ASCII digits count as digits, while `\d` in `re.findall(r'\d+', …)` also matches other Unicode digits. A label whose only digits are non-ASCII fails with `NoDigitRun`. A label where a non-ASCII digit comes before the first ASCII run, or joins it, gives a different value: "１２ of 3" gives 3 (Python: 12) and "12٣" gives 12 (Python: 123).
- JsScraping.AccumulateAgrees, JsScraping.PyStopsNoLater: the comparison lemmas show both scripts one sequence of screens. A real device does so only if the two swipes move the list equally. `scroll_down` swipes two thirds of the usable height (from `E` to `E/3`, where `E` is the window height less a density-dependent margin). `scrollDown` swipes from y 1500 to y 500. The two agree only when `E` is 1500 pixels. Elsewhere the two scripts see different screens, and the Python script can scroll more often.
- JsScraping.HarvestJs: the source loop is `while (true)`, and on a device where every scroll adds a name it never ends. The model requires some scroll to add no name (`StopRules.Stalls`), so it has no result for such a device. By `StopRules.JsStopsAtStalls`, this requirement holds exactly on the devices where the source loop ends.
