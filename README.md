# JaiDurgaBricks bookkeeping core, in Dafny

JaiDurgaBricks is a small bookkeeping front-end for a brick kiln. Most of it
is screens and calls to a hosted database. This project models the logic that
sits inside those screens and proves what that logic guarantees:

- **Brick-load ledger** (`brick_loads.dfy`, module `BrickLoads`). A load keeps
  three running totals: the amount owed, the quantity delivered in thousands
  of bricks, and the amount paid. A log of delivery and payment events feeds
  these totals. The load is the class `BrickLoad`. Creating a load, adding a
  delivery, adding a payment and deleting a log each update the running
  totals step by step. Creating a load with an amount paid that is not
  negative gives running totals equal to the totals recomputed from the logs
  (`Consistent`). Adding and deleting logs keep that agreement as long as the
  store accepts each log change. The handlers never look at the store's
  answer, so when a change is refused the totals move anyway and the
  agreement is lost. Adding a log and then deleting it gives back the logs
  and all three totals; only the id counter has moved on. The detail view's
  recomputation (`CalculateLogTotals`) is a loop proved equal to those sums, and the sums do not depend on log
  order. The search box of the load list is also modelled.
- **Work types and their default pay** (`work_types.dfy`, module `WorkTypes`).
  This is the enumeration of work kinds and the table of default amounts.
- **One worker's ledger** (`worker_detail.dfy`, module `WorkerDetail`).
  It covers:
  - the pay rule of the work form, tied to the default table;
  - the record a saved form produces;
  - the date and type filters;
  - the signed total (work minus usage), which does not depend on order;
  - the merged, date-ordered list of both record kinds;
  - the screen class `WorkerScreen`, whose add, delete and total-click
    handlers prepend, remove by id and reset the forms.
- **Worker list** (`workers_page.dfy`, module `WorkersPage`). It covers the
  case-insensitive search over name and phone, adding and deleting workers
  while the shown list stays the search of the full list, and the
  balance shown on each card.
- **Calculator input editor** (`calculator.dfy`, module `Calculator`). Digit,
  operator, backspace and clear keys are methods of a class over
  `(input, result, evaluated)`. None of them ever puts two operators next to
  each other.
- **Translations** (`i18n.dfy`, module `I18n`). This is the full
  English/Telugu label table; every row has both texts. It also covers the
  language store and its lookup that falls back to the key.

`common.dfy` (module `Common`) holds the shared helpers:
- `Option`;
- days as integers;
- an order-preserving `Filter` with the `Selects` specification, which says
  the result keeps, in order, exactly the accepted elements with their
  multiplicities;
- exact sums over reals, with concatenation and permutation lemmas;
- `Contains` (substring) and ASCII `Lower`.

Amounts are exact `real`s. Dates are day numbers. A database call whose
failure the handler catches is a boolean parameter `ok`. A store call whose
answer the handler ignores is a boolean parameter `stored`. Ids that the
database assigns are parameters, except the brick-load log ids. Those come from a counter,
`nextLogId`, that is never reused.

## Model

| member | source | states |
|---|---|---|
| WorkTypes.DefaultsOf | src/types/index.ts:54-62 | Every work type has a row, so the lookup is total. Every default amount is positive. Only brick carrying is per thousand. Only tractor and van have a driver flag. Only top work has a half-day flag, and its amount is even. |
| BrickLoads.DeliveryLog | src/components/brickloads/BrickLoadDetail.tsx:220-233 | A delivery log has the given id and date, the brick kind, a quantity and the given rate. |
| BrickLoads.DeliveryLogAmounts | src/components/brickloads/BrickLoadDetail.tsx:220-222 | A delivery's quantity is count/1000 and its amount is count·rate/1000. It adds its amount to the total owed, its quantity to the quantity and nothing to the amount paid. |
| BrickLoads.PaymentLogOf | src/components/brickloads/BrickLoadDetail.tsx:266-276 | A payment log has no quantity and no rate. It adds exactly the payment to the amount paid and nothing to the total owed or the quantity. |
| BrickLoads.FindIndex | src/components/brickloads/BrickLoadDetail.tsx:372-373 | A found index is the first log with that id. Not found means no log has that id. |
| BrickLoads.RemoveUnique | src/components/brickloads/BrickLoadDetail.tsx:372-375 | With distinct ids, deleting the rows with the id of the log at k removes exactly that one log and keeps the rest in order. |
| BrickLoads.AppendKeepsIds | src/components/brickloads/BrickLoadDetail.tsx:224-233 | A log under the next id keeps the ids distinct and below the counter. |
| BrickLoads.RemoveAtKeepsIds | src/components/brickloads/BrickLoadDetail.tsx:375 | Dropping a log keeps the ids distinct and below the counter. |
| BrickLoads.RemoveAfterAppend | src/components/brickloads/BrickLoadDetail.tsx:372-375 | A log appended under a fresh id is found at the end, and deleting its id gives back the previous logs. |
| BrickLoads.AppendTotals | src/components/brickloads/BrickLoadDetail.tsx:333-346 | One more log adds exactly its own contribution to each recomputed total. |
| BrickLoads.RemoveAtTotals | src/components/brickloads/BrickLoadDetail.tsx:378-402 | Dropping a log takes exactly its contribution out of each recomputed total. |
| BrickLoads.LogTotalsOrderFree | src/components/brickloads/BrickLoadDetail.tsx:333-346 | The recomputed totals do not depend on the order of the logs. |
| BrickLoads.CalculateLogTotals | src/components/brickloads/BrickLoadDetail.tsx:333-346 | The loop returns the sum over brick logs, the sum over payment logs, and the first minus the second. |
| BrickLoads.SearchLoads | src/components/brickloads/BrickLoadDetail.tsx:93-104 | An empty query lists all loads in order. Otherwise the result is the order-preserving sublist of loads whose lower-cased village contains the lower-cased query or whose phone contains the query as typed. |
| BrickLoads.BrickLoad.Pending | src/components/brickloads/BrickLoadDetail.tsx:329-331 | The amount due plus the amount paid is the total owed. It is negative exactly when the load is overpaid, so it is not clamped. On a consistent load it is the recomputed brick total minus the payment total. |
| BrickLoads.BrickLoad.constructor | src/components/brickloads/BrickLoadDetail.tsx:161-206 | A new load records count/1000 and count·rate/1000, writes a delivery log, and writes a payment log only when the amount paid is positive. Its totals agree with its logs exactly when the amount paid is not negative. |
| BrickLoads.BrickLoad.AppendLog | src/components/brickloads/BrickLoadDetail.tsx:224-255 | Appending a log under the next id adds its contribution to each running total and keeps the totals consistent with the logs. |
| BrickLoads.BrickLoad.AddBrickLog | src/components/brickloads/BrickLoadDetail.tsx:216-255 | The total owed and the quantity rise by exactly the delivery's amount and quantity, and the amount paid is unchanged, whether or not the store took the log. A stored log is appended under the next id and consistency is kept. A log the store refused leaves the logs as they were, and a non-zero delivery then breaks consistency. |
| BrickLoads.BrickLoad.AddToTotals | src/components/brickloads/BrickLoadDetail.tsx:235-255 | Each running total rises by exactly the given contribution. |
| BrickLoads.BrickLoad.AddPayment | src/components/brickloads/BrickLoadDetail.tsx:262-291 | The amount paid rises by the payment, and the total owed and the quantity are unchanged, whether or not the store took the log. A stored log is appended under the next id and consistency is kept. A refused log leaves the logs as they were, and a non-zero payment then breaks consistency. |
| BrickLoads.BrickLoad.DropLogAt | src/components/brickloads/BrickLoadDetail.tsx:375 | The log at k leaves the list and the others keep their order. |
| BrickLoads.BrickLoad.SubtractFromTotals | src/components/brickloads/BrickLoadDetail.tsx:377-402 | A brick log lowers the total owed by its amount and the quantity by its quantity (0 when missing); a payment log lowers only the amount paid; each total drops by exactly that log's share of it. |
| BrickLoads.BrickLoad.DeleteLog | src/components/brickloads/BrickLoadDetail.tsx:368-402 | An unknown id changes nothing. Otherwise a brick log lowers the total owed by its amount and the quantity by its quantity (0 when missing), and a payment log lowers only the amount paid, whether or not the store deleted the row. The log leaves the list only when the store deleted it, and then consistency is kept. A refused delete leaves the logs as they were, and then the load stays consistent exactly when the log contributed nothing to any total. |
| BrickLoads.BrickLogRoundTrip | src/components/brickloads/BrickLoadDetail.tsx:216-402 | When the store accepts both calls, adding a delivery and then deleting its log restores the logs and all three totals. |
| BrickLoads.PaymentRoundTrip | src/components/brickloads/BrickLoadDetail.tsx:262-402 | When the store accepts both calls, adding a payment and then deleting its log restores the logs and all three totals. |
| WorkerDetail.PayAmount | src/components/workers/WorkerDetail.tsx:215-238 | Per work type: kundi gives the kundi-driver or kundi default by role; brick carrying gives the rate per thousand, rounded down; tractor and van give the default, doubled for a driver; a half day of top work is exactly half the default; the other types give their default. The amount is positive except for brick carrying, and never negative for a count that is not negative. |
| WorkerDetail.NewWorkRecord | src/components/workers/WorkerDetail.tsx:379-388 | The driver flag is kept exactly for kundi, tractor and van. The brick count is kept exactly for brick carrying. The half-day flag is kept exactly for top work. The other fields are the form's values. |
| WorkerDetail.RecordDeterminesAmount | src/components/workers/WorkerDetail.tsx:379-388 | A saved record keeps every input of the pay rule: applying the rule to the record gives back the amount the form offered. |
| WorkerDetail.FilterWork | src/components/workers/WorkerDetail.tsx:173-189 | The shown work is the order-preserving sublist of records with the chosen date (if any) and the chosen type (if one is chosen; the usage filter keeps all types). |
| WorkerDetail.FilterUsage | src/components/workers/WorkerDetail.tsx:191-208 | A work-type filter empties the usage list. Otherwise the result is the order-preserving sublist of usage records with the chosen date, if any. |
| WorkerDetail.Balance | src/components/workers/WorkerDetail.tsx:296-298 | The signed total is work minus usage. With no records it is 0, the start value of the sums. When no amount is negative it lies between minus the usage sum and the work sum. |
| WorkerDetail.BalanceOrderFree | src/components/workers/WorkerDetail.tsx:296-298 | The signed total (work minus usage) does not depend on the order of either list. |
| WorkerDetail.BalanceAfterPrependWork | src/components/workers/WorkerDetail.tsx:296-298 | Prepending a work record raises the total by its amount. |
| WorkerDetail.BalanceAfterPrependUsage | src/components/workers/WorkerDetail.tsx:296-298 | Prepending a usage record lowers the total by its amount. |
| WorkerDetail.Abs | src/components/workers/WorkerDetail.tsx:634 | The result is not negative and is the value or its negation. |
| WorkerDetail.RemoveWork | src/components/workers/WorkerDetail.tsx:262 | Deleting keeps, in order, exactly the work records whose id differs. |
| WorkerDetail.RemoveUsage | src/components/workers/WorkerDetail.tsx:269 | Deleting keeps, in order, exactly the usage records whose id differs. |
| WorkerDetail.RemoveAfterPrepend | src/components/workers/WorkerDetail.tsx:262-269 | Deleting a record that was just prepended with a fresh id gives back the list before the add. |
| WorkerDetail.Tagged | src/components/workers/WorkerDetail.tsx:305-315 | Each work record, then each usage record, appears once, tagged with its kind. |
| WorkerDetail.InsertByDate | src/components/workers/WorkerDetail.tsx:317-323 | Inserting into a date-ordered list keeps it ordered and adds exactly the one entry. |
| WorkerDetail.SortByDate | src/components/workers/WorkerDetail.tsx:317-323 | The result is in non-decreasing date order and is a permutation of the input. |
| WorkerDetail.InsertByDateStable | src/components/workers/WorkerDetail.tsx:317-323 | An inserted entry goes before every entry of its own day, so each day's entries keep the order of the input. |
| WorkerDetail.SortByDateStable | src/components/workers/WorkerDetail.tsx:317-323 | The sort is stable: the entries of each day keep their input order, as Array.prototype.sort guarantees. |
| WorkerDetail.MergeAndSortStable | src/components/workers/WorkerDetail.tsx:301-324 | Within one day the merged table lists the work records first, then the usage records, each in its own list order. |
| WorkerDetail.MergeAndSort | src/components/workers/WorkerDetail.tsx:301-324 | Every work and usage record appears exactly once, tagged, in non-decreasing date order. |
| WorkerDetail.WorkerScreen.constructor | src/components/workers/WorkerDetail.tsx:55-89 | The screen starts with no filters and closed forms. The work form starts on kundi at the kundi default, with 1000 bricks, a full day and the work role. |
| WorkerDetail.WorkerScreen.ShownWork | src/components/workers/WorkerDetail.tsx:173-209 | The listed work is the filtered sublist of the worker's work records. |
| WorkerDetail.WorkerScreen.ShownUsage | src/components/workers/WorkerDetail.tsx:173-209 | The listed usage is the filtered sublist of the worker's usage records. |
| WorkerDetail.WorkerScreen.RefreshWorkAmount | src/components/workers/WorkerDetail.tsx:212-239 | With the form closed the amount is unchanged. With it open, the amount is the pay rule of the current inputs, whatever it was before. |
| WorkerDetail.WorkerScreen.AddWork | src/components/workers/WorkerDetail.tsx:371-399 | On success the saved record is prepended and the total rises by its amount. The form resets, with the reset amount taken from the role before the reset. Usage, filters and the other forms are unchanged. A failure changes nothing. |
| WorkerDetail.WorkerScreen.ResetWorkForm | src/components/workers/WorkerDetail.tsx:392-401 | The form returns to kundi, today and 1000 bricks. The amount is 500 or 400 by the previous role. |
| WorkerDetail.WorkerScreen.AddUsage | src/components/workers/WorkerDetail.tsx:345-364 | An empty amount or a failure changes nothing. Otherwise the record is prepended, the total falls by its amount and the form resets. Work records are unchanged. |
| WorkerDetail.WorkerScreen.ClickTotal | src/components/workers/WorkerDetail.tsx:628-646 | The usage form opens pre-filled with the absolute value of the listed total. |
| WorkerDetail.WorkerScreen.RequestDelete | src/components/workers/WorkerDetail.tsx:248-251 | The record and its kind are selected and the confirmation opens. |
| WorkerDetail.WorkerScreen.ConfirmDelete | src/components/workers/WorkerDetail.tsx:254-289 | With nothing selected, nothing changes. On success the records with that id leave their own list only. Success or not, the confirmation closes and the selection is cleared. |
| WorkersPage.Search | src/app/page.tsx:69-82 | A query that trims to nothing lists everyone. Otherwise the result is the order-preserving sublist of workers whose lower-cased name or phone contains the lower-cased, untrimmed query. |
| WorkersPage.FindsOwnName | src/app/page.tsx:69-82 | In any list that holds the worker, a query equal to the worker's name up to letter case finds that worker. |
| WorkersPage.SearchPrepend | src/app/page.tsx:69-117 | Searching after a prepend lists the new worker first exactly when the query is blank or the worker matches, followed by the old search. |
| WorkersPage.RemoveWorker | src/app/page.tsx:142-145 | Deleting keeps, in order, exactly the workers whose id differs. |
| WorkersPage.SearchRemoveCommute | src/app/page.tsx:69-145 | Removing from the shown list gives the same list as searching the full list after the removal. |
| WorkersPage.ShownBalance | src/app/page.tsx:214 | The card shows the fetched balance, or 0 when there is none. |
| WorkersPage.ShownRed | src/app/page.tsx:209 | A worker without a fetched balance is never red, and a red balance is below zero. |
| WorkersPage.RedIffNegative | src/app/page.tsx:209-214 | The balance is red exactly when the shown amount is negative. |
| WorkersPage.WorkersPage.constructor | src/app/page.tsx:69-82 | The page starts with the fetched workers, an empty query, and the shown list equal to the search. |
| WorkersPage.WorkersPage.ApplySearch | src/app/page.tsx:69-82 | The shown list becomes the search of the full list. |
| WorkersPage.WorkersPage.SetQuery | src/app/page.tsx:69-82 | A new query, with the shown list re-synced. |
| WorkersPage.WorkersPage.AddWorker | src/app/page.tsx:100-127 | An empty name or phone, or a failure, changes nothing. Otherwise the new worker, with the debt only if entered, is prepended, the form is cleared and closed, and the shown list is the search of the new list. |
| WorkersPage.WorkersPage.RequestDelete | src/app/page.tsx:129-132 | The worker is selected and the confirmation opens. |
| WorkersPage.WorkersPage.ConfirmDelete | src/app/page.tsx:134-149 | With nothing selected, or on failure, nothing changes. Otherwise exactly that worker leaves the list, the rest stay in order, the shown list stays synced and the confirmation closes. |
| Calculator.Display | src/components/ui/Calculator.tsx:92 | The display is never empty and shows a non-empty input as it is. |
| Calculator.Calculator.constructor | src/components/ui/Calculator.tsx:11-13 | The calculator starts with empty input and result, not evaluated. |
| Calculator.Calculator.NumberClick | src/components/ui/Calculator.tsx:15-22 | After an evaluation the key replaces the input; otherwise it is appended. Either way the input is no longer evaluated. A digit never creates two adjacent operators. |
| Calculator.Calculator.OperatorClick | src/components/ui/Calculator.tsx:24-39 | On empty input only "-" has an effect. A trailing operator is replaced and the length stays the same. Otherwise the key is appended. On non-empty input the result is not evaluated. Two adjacent operators never arise. |
| Calculator.Calculator.Clear | src/components/ui/Calculator.tsx:41-45 | Input and result become empty, and the input is not evaluated. |
| Calculator.Calculator.Backspace | src/components/ui/Calculator.tsx:47-49 | Exactly the last character is removed, and an empty input stays empty. |
| I18n.TableComplete | src/utils/i18n.ts:12-294 | Every row of the label table has both an English and a Telugu text. |
| I18n.Translate | src/utils/i18n.ts:305-307 | The lookup returns the row's text in the language asked for. A missing key, or an empty text, falls back to the key. |
| I18n.KnownKeyTranslates | src/utils/i18n.ts:305-307 | For a key of a complete table, the lookup is that row's text and is never empty. |
| I18n.LanguageStore.constructor | src/utils/i18n.ts:303 | The store starts in Telugu. |
| I18n.LanguageStore.SetLanguage | src/utils/i18n.ts:304 | Only the language changes. |
| I18n.LanguageStore.T | src/utils/i18n.ts:305-307 | A known key gives its text in the language current at call time. An unknown key gives the key. |

## Left out

- The hosted database, authentication, routing, presentational components and
  the server-side balance procedure are not modelled. A call's success is the
  `ok` parameter, and the balances are a given map.
- JavaScript doubles are not modelled. `parseInt`/`parseFloat` of form fields
  are replaced by exact `real` inputs. So the rounding of `/1000`, and the
  double rounding of `floor((n/1000)*220)`, are not modelled either.
- BrickLoads.BrickLoad.AddBrickLog: the count is any `real`, not the integer
  `parseInt` yields, and the rate is not checked for being a number.
- BrickLoads.BrickLoad.constructor: the load's store id and its log ids are
  parameters or counter values, and the failure of the log inserts, which the
  source ignores, is not modelled.
- BrickLoads.BrickLoad.AddBrickLog, BrickLoads.BrickLoad.AddPayment and
  BrickLoads.BrickLoad.DeleteLog: the running totals are the ones the screen
  shows for the selected load. The handlers also ignore the answer of the call
  that writes the new totals to the store. A refused totals update, after
  which the stored totals differ from the shown ones until the next fetch, is
  not modelled.
- BrickLoads.BrickLoad.DeleteLog: the screen fetches a load's logs newest date
  first and fetches them again after every change. The model keeps the logs in
  the order they were added, and its results are stated in that order. The
  totals do not depend on the order (`LogTotalsOrderFree`), so the order
  affects only the listing.
- Deleting a whole brick load and the "no load selected" guards of the
  handlers are not modelled: the methods are called on a selected load.
- Concurrent clients and the read-modify-write race on the stored brick-load
  totals are not modelled. The model is single-client and sequential.
- WorkersPage.Search: lower-casing covers the letters A to Z and trimming
  covers ASCII white space. Unicode case mapping and Unicode spaces are not
  modelled.
- BrickLoads.SearchLoads: lower-casing covers the letters A to Z only.
- Dates are day numbers. The source compares "YYYY-MM-DD" strings, which
  match day numbers for canonical strings. `formatDate`, time zones,
  `toLocaleString`, the WhatsApp message and its URL are not modelled.
- The calculator's evaluation (`handleCalculate`, which uses `eval` and
  rewrites percentages) is not modelled. The `result` field is only reset.
- Deleting the worker from the worker screen navigates away. Only the closing
  of the confirmation is modelled for that case.
- The local-storage pre-fill of forms and the tab switch on the worker screen
  are not modelled.
- The initial debt is stored and shown, never added to a balance, so no
  balance contract mentions it.
