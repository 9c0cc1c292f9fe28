# Utility bill share calculator: model of the screen's logic

The application is a single React Native screen (`App.js`). A user records the
reading of a private electricity or water sub-meter. The screen then works out
the user's share of the shared ("major") meter's bill and keeps a short history
of saved readings per category in the device's key-value storage
(AsyncStorage). This project models the two pieces of logic under the UI, in
three modules:

- `Parsing` (`parsing.dfy`) models the two ways JavaScript reads a number from
  text. `ParseFloat` is `parseFloat`: the longest numeric prefix after leading
  white space, with sign, decimal point and exponent. `ToNumber` is the
  `Number` coercion that a comparison such as `majorCons > 0` applies: the
  whole trimmed string must be a literal, and a blank string is 0. Values are
  exact reals, and a NaN result is `None`.
- `Billing` (`billing.dfy`) models the live calculation of `App.js:34-36`. It
  defines `Consumption` (`subCons`), `IsError` (`isError`) and `BillShare`
  (`subBill`) over the numbers that `Read` takes from the four text fields.
  `BillShare` returns a `JsNumber`, because a major bill that does not parse
  makes the share NaN in the source.
- `ReadingStore` (`reading_store.dfy`) models the per-category storage keys and
  the bounded history. The class `UtilityScreen` holds the screen's state: the
  mode, the text fields `prevSub`, `currSub`, `majorCons` and `majorBill`, the
  `history`, and the storage map. It has the operations `Load` (`loadData`),
  `SelectMode` (a tab tap followed by the reload effect), `Save` (`saveData`),
  `Clear` (the Clear button) and `SetItem` (one storage write that may fail).
  Which reads and writes succeed is a parameter of each operation, so partial
  failure is stated exactly.

Where `App.js` behaves differently from what its own messages suggest (the
warning "Must be higher than {prevSub}" at App.js:84, the "Storage load error"
log at App.js:29), the model follows the code:

- When the stored history does not parse, `JSON.parse` throws after
  `setPrevSub` has already run. The reading is then set from storage, and the
  history on display keeps its previous value. After a category switch, that
  value can be the other category's history.
- `isError` is false whenever either reading does not parse. So a current
  reading such as `abc` is not flagged. It is saved, and it becomes the next
  previous reading, which again never raises the flag
  (`Billing.NonNumericReading`, `Billing.NonNumericPrevious`,
  `UtilityScreen.Save`).
- Only a save bounds the history to 12 entries. A longer history loaded from
  storage is shown as it is.
- The second write of a save can fail after the first has succeeded. The
  reading key then already holds the new reading, but the history key and all
  in-memory fields do not change (`UtilityScreen.Save`).

## Model

| member | source | states |
|---|---|---|
| `Parsing.ParseFloat` | App.js:34 | `parseFloat`: a number is found only when the first character after the leading white space can start a literal (a digit, a sign or a decimal point). |
| `Parsing.ToNumber` | App.js:36 | The `Number` coercion of `majorCons > 0`: a blank field is 0, and any other field that `Number` accepts is the number `parseFloat` reads from it. |
| `Parsing.EmptyField` | App.js:34-36 | An empty field is NaN for `parseFloat` but 0 for `Number`. |
| `Parsing.StrictAgreesWithPrefix` | App.js:36 | `parseFloat` and `Number` part ways only when text other than white space follows the literal that `parseFloat` found. |
| `Parsing.PositiveNumberParses` | App.js:36 | If the guard `majorCons > 0` holds, `parseFloat(majorCons)` is that same positive number, so in the model the division never divides by zero. |
| `Parsing.WholeNumber` | App.js:34 | A non-empty string of digits reads as its decimal value under both conversions. |
| `Parsing.TrailingTextIgnored` | App.js:34 | `parseFloat` ignores text after the digits that cannot continue the number, that is, text starting with anything other than a digit, `.`, `e` or `E` (`12abc` reads as 12). |
| `Billing.Read` | App.js:34-36 | The inputs read from the fields: the typed flag is true exactly when the current reading is non-empty, and an empty current reading does not parse. When the guard `majorCons > 0` holds, the divisor equals the guard's number. |
| `Billing.Consumption` | App.js:34 | `subCons`: added to the previous reading it gives the current reading. With no parsable previous reading, the whole current reading is consumption. Equal readings consume nothing. |
| `Billing.IsError` | App.js:35 | `isError`: a raised flag means that both readings parse, that the current one is typed, and that the consumption is negative. When both readings parse and the current one is typed, the flag is raised exactly when the consumption is negative. |
| `Billing.BillShare` | App.js:36 | `subBill`: NaN exactly when the guard holds, the flag is down and the bill does not parse. A share other than 0 means the guard held, the flag was down and something was consumed. |
| `Billing.ReadingsCompared` | App.js:35 | For two readings typed as whole numbers, the flag is raised exactly when the current number is smaller than the previous one. |
| `Billing.NonNumericPrevious` | App.js:34-35 | A previous reading with no numeric prefix, such as a saved `abc`, never raises the flag whatever the current reading. The whole current reading then counts as consumption. |
| `Billing.NonNumericReading` | App.js:34-35 | A typed current reading with no numeric prefix, such as `abc`, never raises the flag whatever the previous reading, and counts as 0 in the consumption. |
| `Billing.OrderedReadings` | App.js:34-35 | If previous <= current, the consumption is current − previous, it is >= 0, and the flag is down. |
| `Billing.RegressiveReading` | App.js:35-36 | A typed current reading below the previous one raises the flag, and the share is 0 whatever the major usage and bill. |
| `Billing.NoMajorUsage` | App.js:36 | If the major usage is not a positive number, the share is 0. |
| `Billing.ProportionalShare` | App.js:36 | When the share is computed, share × major usage = consumption × bill. If the bill does not parse, the share is NaN. |
| `Billing.ShareWithinBill` | App.js:36 | A consumption between 0 and the major usage costs between 0 and the major bill. |
| `Billing.SharesAdd` | App.js:34-36 | With the same major usage and bill, the shares of two consecutive periods add up to the share of the whole period. |
| `Billing.Example` | App.js:34-36 | Previous 100, current 150, major usage 500 and major bill 200 give a consumption of 50, no error and a share of 20. |
| `Billing.RegressiveExample` | App.js:35-36 | Previous 100 and current 90 raise the flag, and the share is 0. |
| `Billing.EmptyCurrentReading` | App.js:34-35 | An empty current reading is not an error. Its consumption is minus the previous reading. |
| `ReadingStore.PrevKey` | App.js:20 | A category's reading key is the category's prefix (`elec` or `water`) followed by `_prev`. |
| `ReadingStore.HistKey` | App.js:21 | A category's history key is the same prefix followed by `_hist`, so the two keys of a category differ only in their suffix. |
| `ReadingStore.KeysSeparate` | App.js:20-21 | The keys depend only on the mode. A reading key is never a history key, and the two categories share no key. |
| `ReadingStore.Pushed` | App.js:42 | The saved history holds the new entry first, then the old entries in order, with at most 12 entries. Its length is min(old length + 1, 12). |
| `ReadingStore.SavesKeepNewest` | App.js:42 | After several saves, the history is the newest 12 of all entries, newest first. |
| `ReadingStore.ThirteenSaves` | App.js:42 | Thirteen saves from an empty history leave 12 entries: those of saves 2 to 13, newest first. The first save's entry is gone. |
| `ReadingStore.SavedConsumptionsTelescope` | App.js:34-46 | Consider saves from an empty history where each save's consumption runs from the previous saved reading to its own. The consumptions kept in the history then sum to the last saved reading minus the reading just before the oldest entry kept. With at most 12 saves, that is the first reading. |
| `ReadingStore.LoadedHistory` | App.js:28 | Only text stored under the history key can fail to parse. A non-empty loaded history is exactly the list serialised under that key. |
| `ReadingStore.LoadedPrev` | App.js:27 | A missing or empty stored reading loads as "0". Any other stored reading loads as it is. So the loaded previous reading is never empty. |
| `ReadingStore.FreshStorageLoadsDefaults` | App.js:27-28 | With nothing stored (first launch), the previous reading loads as "0" and the history as []. An empty stored history also loads as [], the falsy case of the test at App.js:28. |
| `ReadingStore.HistoryWriteThenLoad` | App.js:44 | Writing the history key changes only the history that this category loads. The reading it loads and everything the other category loads stay the same. |
| `ReadingStore.PersistThenLoad` | App.js:43-44 | After both writes, a later load reads back the reading and the history that were stored. What the other category loads is unchanged. |
| `ReadingStore.ReadingWriteThenLoad` | App.js:43 | After only the first write, a later load reads the new reading with the old history. What the other category loads, reading and history, is unchanged. |
| `ReadingStore.UtilityScreen.constructor` | App.js:9-15 | The initial state: Electricity, the given date, empty fields, an empty history and the given storage. |
| `ReadingStore.UtilityScreen.SetItem` | App.js:43-44 | A write stores the value under its key when it succeeds. When it fails, storage is unchanged. Only text can be written to a reading key, so every reading key keeps holding text. |
| `ReadingStore.UtilityScreen.Load` | App.js:23-30 | If a read fails, nothing changes. Otherwise `prevSub` becomes the stored reading or "0". The history becomes the stored list, or [] when nothing is stored. If the stored history does not parse, the history keeps its old value. |
| `ReadingStore.UtilityScreen.SelectMode` | App.js:62-67 | A tab tap (`setMode` at App.js:62 and 67), followed by the reload effect of App.js:30-32. Selecting the other category loads from that category's keys. Selecting the current category changes nothing. The typed fields are kept. |
| `ReadingStore.UtilityScreen.Save` | App.js:38-50 | An empty current reading or a raised flag means `Rejected`, with no write and no change. Otherwise the reading key is written first, then the history key. If either write fails, `prevSub`, `currSub` and `history` stay as they were, and after a failed second write the reading key already holds the new reading. If both writes succeed, `history` is `Pushed(new entry, old history)`, `prevSub` is the old `currSub` and `currSub` is empty. Storage then loads back exactly these values. `majorCons`, `majorBill` and `mode` are not in the method's frame. |
| `ReadingStore.UtilityScreen.Clear` | App.js:100 | Empties `currSub`, `majorCons` and `majorBill`. The frame excludes `prevSub` and `history`, so they never change. |

## Left out

- Rendering, styles, the history modal, the Share sheet and its message (App.js:52-150, except the tab handlers at App.js:62 and 67, which `SelectMode` models). The unit and colour labels (App.js:18-19) are left out too. The text of each alert is represented only by `SaveOutcome`.
- AsyncStorage is modelled as a synchronous in-memory map. The model does not cover overlapping saves, the scheduling of React effects, or a save racing a load. A failed write leaves its key unchanged.
- The mount effect (App.js:32) is not run by the constructor. A client calls `Load` after construction.
- `Billing.BillShare`: computed on exact reals. IEEE rounding, Infinity and -0 are not modelled. NaN appears only where a major bill does not parse.
- `Parsing.ParseFloat`: the literal `Infinity` and the Unicode space separators beyond those listed in `IsSpace` are not recognised.
- `Parsing.ToNumber`: hexadecimal, octal and binary literals and `Infinity` are not recognised. For these, `Number` gives a number but the model gives NaN.
- `toFixed(2)` formatting of the saved entry (App.js:40) is not modelled. Entries hold the exact consumption and share.
- `JSON.stringify` and `JSON.parse` of the history (App.js:28, 44) are opaque. A serialised list is a `Json` value and parses back to itself. Any non-empty `Text` value at a history key fails to parse, even text that happens to be valid JSON (for example `[]` typed by hand). A parse that yields a non-list value is not modelled.
- `ReadingStore.UtilityScreen.constructor`: requires that every reading key in the initial storage holds text. The screen itself only writes text there. A serialised list stored under a reading key is not modelled.
- `Date.now()` and `toLocaleDateString()` (App.js:10, 40) are parameters: the entry id is passed to `Save`, and the date to the constructor.
