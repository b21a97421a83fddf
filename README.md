# Milk centre client: a verified Dafny model

This project models the bookkeeping logic of a dairy milk-collection client, a React single-page app that talks to a REST server. The app records the milk each farmer brings and prices it from a table of fat-percentage rates. It keeps a ledger of advances paid to farmers, shows reports, and manages the farmer and helper accounts. The model leaves out rendering, HTTP, timers and clocks and keeps what the app decides:

- **Rates** (`FatRates`, module of `fat_rates.dfy`): `calculateRate`. An empty table gives 0, an exact row gives its rate, and a fat outside the table is clamped to the end rows. Any other fat is interpolated between the enclosing pair and rounded.
- **Collection entry** (`MilkCollection`): the exact-rate lookup of the submit check and the automatic amount. It also covers the manual-edit flag, the guard chains of the add and edit forms, the amount-mode switches, and the morning/evening filter and `formatTime`.
- **Rate table** (`FatRatesPage`): the two validators, the upsert and edit with re-sorting, and deletion. It carries the proof that a validated change keeps the fat values distinct and sorted.
- **Session and access** (`Session`, `Auth`, `Api`, `App`): the two storage slots, sign-in and sign-out, and the role checks and role-filtered navigation. It also covers the response classifier, with its access-denied revocation emitting an event before the forced logout, the recursive `_id` → `id` rewrite of server objects, and the query-string builder.
- **Event bus** (`EventBus`): listener lists per event name, with `on`, `off` and `emit`.
- **Errors** (`ErrorHandler`): status bands, the login error titles and messages, validation error typing, field-name formatting, and error parsing.
- **Form engine** (`FormValidation`): rule checks in a fixed order, where the first failure wins, and the values/errors/touched state of a form.
- **Alert queue** (`Alerts`): showing alerts with defaults, removing, clearing and updating them, the validation summaries and the API error dispatch.
- **Ledger, reports, farmers** (`Advances`, `Reports`, `UsersPage`): the submit guard chains, the searches and sorts, the totals, pagination, daily grouping, per-farmer statistics, and the list updates after server answers.

Modelling choices that hold throughout:

- Numbers are exact `real`s. `NaN` appears only where the app branches on it, as `None`.
- Dates are strings of one format, compared in the order of their text.
- The server is an oracle: every server answer is a parameter, as are the current time, random alert ids and the user's confirmation of a dialog.
- Timers and page reloads are recorded as scheduled intents in order, never run.
- A page's `useState` hooks are the fields of a class, and each handler's contract states the page's whole new state. The collection page groups the entry form's hooks into one record and the edit form's hooks into another.
- Alerts and emitted events are recorded lists.
- State the app updates in place is a `class`. Its operations are methods whose `ensures` give the whole new state, usually as a transition function (`AfterSubmit`, `AfterUserSubmit`, …) whose cases are proved as lemmas.

## Model

| member | source | states |
|---|---|---|
| FatRates.FindExact | src/utils/fatRates.ts:8 | None exactly when no row has fat `f`; otherwise a row of the table with fat `f`, and no earlier row has that fat (the first match, as `find` returns) |
| FatRates.SortByFatOrders | src/utils/fatRates.ts:11 | the sorted copy is a permutation of the table (same multiset, same members) and is ascending by fat |
| FatRates.JsRound | src/utils/fatRates.ts:27 | `Math.round`: the result lies in [x - 0.5, x + 0.5), so halves round up |
| FatRates.Bracket | src/utils/fatRates.ts:21-29 | a pair the loop stops at lies at or after the start, inside the copy, and its two fats enclose `f` |
| FatRates.CalculateRateOfNaN | src/utils/fatRates.ts:3-31 | for a NaN fat: 0 on an empty table, otherwise the rate of a row with the lowest fat (every comparison fails, so the final fallback is reached) |
| FatRates.CalculateRate | src/utils/fatRates.ts:3-31 | an empty table prices every fat at 0; when some row has fat `f`, the first such row's rate is returned, unrounded; otherwise the price is some row's rate or a whole number (a rounded interpolation) |
| FatRates.ExactRowRate | src/utils/fatRates.ts:8-9 | in a table with distinct fats, every row prices its own fat at its own rate |
| FatRates.BelowTableRate | src/utils/fatRates.ts:11-15 | at or below the lowest fat, the price is the lowest row's rate |
| FatRates.FirstIsLowest | src/utils/fatRates.ts:11-14 | with distinct fats, the row with the lowest fat heads the sorted copy |
| FatRates.BottomRate | src/utils/fatRates.ts:13-14 | with no exact row and `f` at or below the sorted copy's first fat, the price is that row's rate |
| FatRates.AboveTableRate | src/utils/fatRates.ts:17-19 | at or above the highest fat, the price is the highest row's rate |
| FatRates.LastIsHighest | src/utils/fatRates.ts:11-18 | with distinct fats, the row with the highest fat ends the sorted copy |
| FatRates.TopRate | src/utils/fatRates.ts:17-18 | with no exact row, `f` above the first fat and at or above the last, the price is the last row's rate |
| FatRates.BracketStopsAt | src/utils/fatRates.ts:21-28 | on an ascending copy, the loop started at or before a pair that strictly encloses `f` stops at that pair |
| FatRates.EnclosingPair | src/utils/fatRates.ts:21-28 | strictly inside an ascending copy with no exact row, some adjacent pair strictly encloses `f` |
| FatRates.SortedEnclosing | src/utils/fatRates.ts:21-28 | the loop stops at the adjacent pair that holds the fats of two neighbouring rows around `f` |
| FatRates.EnclosingRows | src/utils/fatRates.ts:11-28 | for neighbouring rows `lo` < `f` < `hi` of a table with distinct fats, the loop over the sorted copy stops at exactly the pair (`lo`, `hi`) |
| FatRates.EnclosingRowsIn | src/utils/fatRates.ts:21-28 | the same for any ascending sequence drawn from the table |
| FatRates.InsideRate | src/utils/fatRates.ts:21-28 | strictly inside the table and off every row, the pair the loop finds strictly encloses the fat and the price is the rounded interpolation over it |
| FatRates.BetweenRowsRate | src/utils/fatRates.ts:21-28 | strictly between two neighbouring rows, the price is `round(lo.rate + (hi.rate - lo.rate) * (f - lo.fat) / (hi.fat - lo.fat))` |
| FatRates.SomeEnclosing | src/utils/fatRates.ts:11-28 | with no exact row and `f` between two rows, the loop over the sorted copy always finds a pair (the fallback on line 31 is never reached) |
| FatRates.SomeEnclosingIn | src/utils/fatRates.ts:21-28 | the same for any ascending sequence with the table's members |
| FatRates.InterpolatedRateIsWhole | src/utils/fatRates.ts:27 | an interpolated price is always a whole number |
| FatRates.TwoRowRates | src/utils/fatRates.ts:9-27 | in a two-row table the lower fat gets its own rate exactly, and a fat strictly between the two gets the rounded straight-line price |
| FatRates.RoundingAsymmetry | src/utils/fatRates.ts:9-27 | the table [(4.0, 45.4), (5.0, 46.0)] prices 4.0 at 45.4 but 4.1 at 45: exact rows keep decimals, interpolation rounds |
| FatRates.TwoRowsSorted | src/utils/fatRates.ts:11 | two rows already in fat order are their own sorted copy |
| MilkCollection.ExactRate | src/components/MilkCollection.tsx:349 | a NaN fat matches no row; a number gets the first row with exactly that fat |
| MilkCollection.GetExactRate | src/components/MilkCollection.tsx:456-459 | the exactly matching row's rate, and 0 when there is none |
| MilkCollection.AddAutoAmount | src/components/MilkCollection.tsx:141-149 | the entry form's effect changes only the amount, and changes nothing in manual mode or while liters or fat is blank |
| MilkCollection.EditAutoAmount | src/components/MilkCollection.tsx:288-298 | the same for the edit form |
| MilkCollection.SameAmountOnExactMatch | src/components/MilkCollection.tsx:141-149 | when an exact row exists, `calculateRate` (entry form) and the exact lookup (edit form) give the same automatic amount, liters times that row's rate to two decimals |
| MilkCollection.AutoAmountIsNotManual | src/components/MilkCollection.tsx:355-360 | the two-decimal automatic amount reads back within 0.005 of liters times the rate, so it is never flagged as manually edited |
| MilkCollection.FatRateErrorFor | src/components/MilkCollection.tsx:300-318 | an error is left exactly when the value is non-empty, parses to a number and has no exact row; the error carries that number |
| MilkCollection.AddVerdict | src/components/MilkCollection.tsx:320-360 | a rejection always carries a notice (the validation summary, the pending fat-rate warning, or the farmer or rate error); a record is sent only when the form passes, no fat-rate error is pending, the farmer is listed and not deactivated, and a row has exactly the entered fat, and then it carries the form's farmer, that farmer's name, the fat `Number` reads and that row's rate |
| MilkCollection.EditVerdict | src/components/MilkCollection.tsx:207-242 | a silent rejection happens only with no collection being edited or an unknown farmer; a record is sent only while editing, with no fat-rate error, a listed active farmer and an exactly matching row, and then it carries the farmer, the name, the fat `parseFloat` reads and that row's rate |
| MilkCollection.AddVerdictGuards | src/components/MilkCollection.tsx:320-360 | the add checks run in order (form validation, pending fat-rate error, unknown farmer, `isActive === false`, no exact row) and the first failure decides, a failing form getting the "Form Validation Failed" summary of at least one field; a record is sent iff all pass, with the rate of a row whose fat equals the entered fat and the manual flag iff the amount is more than 0.01 from liters times rate |
| MilkCollection.EditVerdictGuards | src/components/MilkCollection.tsx:207-242 | in the edit form an unknown farmer stops silently while a deactivated one gets an error; a record is sent iff every check passes, with an exactly matching rate and the same manual flag |
| MilkCollection.ReplaceById | src/components/MilkCollection.tsx:259 | the list keeps its length; exactly the elements with the edited id become the stored record |
| MilkCollection.ReplaceAbsentId | src/components/MilkCollection.tsx:259 | replacing an id no collection has leaves the list unchanged |
| MilkCollection.FormatTime | src/components/MilkCollection.tsx:446-453 | empty text stays empty; any other text ends in " AM" exactly when its hour reads as below 12 or not as a number, and in " PM" otherwise |
| MilkCollection.ClockText | src/components/MilkCollection.tsx:449-452 | the text ends in " PM" exactly when the hour is a number of at least 12 |
| MilkCollection.FormatTimeOfClock | src/components/MilkCollection.tsx:422-453 | on "hh:mm", hour 0 shows as 12 AM, 12 as 12 PM, 13 to 23 as h - 12 PM, minutes are copied as written, and AM is shown exactly when `isAMTime` holds (hour < 12) |
| MilkCollection.Filtered | src/components/MilkCollection.tsx:429-443 | a collection is listed iff it has the chosen date (any date when none is chosen) and lies in the chosen half of the day |
| MilkCollection.MorningEveningPartition | src/components/MilkCollection.tsx:422-443 | the "am" and "pm" lists split the day's list: their sizes add up to it and their members together are its members |
| MilkCollection.AddSubmitOutcome | src/components/MilkCollection.tsx:362-391 | a rejected submission adds at most its notice (for a form failing validation, the "Form Validation Failed" summary) and changes nothing else; a stored record is prepended, the entry form reset and closed and a success notice naming the farmer added; a thrown error adds a "Failed to Add Collection" notice unless it carries validation errors; the farmers, the rate table and the edit form never change |
| MilkCollection.EditSubmitOutcome | src/components/MilkCollection.tsx:244-269 | a rejected edit adds at most its notice and changes nothing else; a stored record replaces only the edited id, the edit form is cleared and closed, and the success notice names the farmer or "farmer"; a thrown error adds an "Update Failed" notice; the farmers, the rate table and the entry form never change |
| MilkCollection.AfterAdd | src/components/MilkCollection.tsx:320-391 | farmers, rates and the edit form never change; a form failing validation only adds the "Form Validation Failed" summary of its failing fields; the list changes only by the stored record put first; at most one notice is added |
| MilkCollection.AfterEdit | src/components/MilkCollection.tsx:207-271 | farmers, rates and the entry form never change; the list keeps its length and changes only by the stored record replacing the edited id; at most one notice is added |
| MilkCollection.EditSendsOnlyWhileEditing | src/components/MilkCollection.tsx:210 | the edit checks never send a record while no collection is being edited |
| MilkCollection.CollectionPage.constructor | src/components/MilkCollection.tsx:19-55 | the page starts with empty lists, the entry form on today's date and time, automatic amounts, no errors and no edit in progress |
| MilkCollection.CollectionPage.Load | src/components/MilkCollection.tsx:76-97 | the loaded users, collections and rate table replace the page's; nothing else changes |
| MilkCollection.CollectionPage.HandleLitersChange | src/components/MilkCollection.tsx:141-149 | the entry form gets the new liters value, then the auto-amount effect; nothing else changes |
| MilkCollection.CollectionPage.HandleFatPercentageChange | src/components/MilkCollection.tsx:300-318 | the fat-rate error becomes `FatRateErrorFor(value)` and the form gets the new fat followed by the auto-amount effect; nothing else changes |
| MilkCollection.CollectionPage.HandleAmountChange | src/components/MilkCollection.tsx:393-396 | typing an amount stores it and forces manual mode; nothing else changes |
| MilkCollection.CollectionPage.HandleAmountModeToggle | src/components/MilkCollection.tsx:398-413 | the mode flips; manual to auto recomputes the amount from the current liters and fat, auto to manual keeps it; nothing else changes |
| MilkCollection.CollectionPage.ResetForm | src/components/MilkCollection.tsx:415-420 | the entry form goes back to a blank form dated with the date and time of the render that runs it, auto mode, no fat-rate error, add form closed; nothing else changes |
| MilkCollection.CollectionPage.HandleSubmit | src/components/MilkCollection.tsx:320-391 | the page moves exactly as `AfterAdd` says, with the form reset to the date and time of the current render: the add checks' verdict, then `AddSubmitOutcome`'s cases |
| MilkCollection.CollectionPage.HandleEditCollection | src/components/MilkCollection.tsx:151-165 | the edit form opens on the collection's values and manual flag with no error, followed by the edit auto-amount effect; nothing else changes |
| MilkCollection.CollectionPage.HandleEditLitersChange | src/components/MilkCollection.tsx:288-298 | the edit form gets the new liters value, then the edit auto-amount effect; nothing else changes |
| MilkCollection.CollectionPage.HandleEditFatPercentageChange | src/components/MilkCollection.tsx:167-184 | the edit fat-rate error becomes `FatRateErrorFor(value)`, then the edit auto-amount effect; nothing else changes |
| MilkCollection.CollectionPage.HandleEditAmountChange | src/components/MilkCollection.tsx:186-189 | typing an amount stores it and forces manual mode in the edit form; nothing else changes |
| MilkCollection.CollectionPage.HandleEditAmountModeToggle | src/components/MilkCollection.tsx:191-205 | the edit mode flips; back to auto recomputes from the exact rate (0 when none), to manual keeps the amount; nothing else changes |
| MilkCollection.CollectionPage.ResetEditForm | src/components/MilkCollection.tsx:273-286 | the edit form is cleared and closed; nothing else changes |
| MilkCollection.CollectionPage.HandleEditSubmit | src/components/MilkCollection.tsx:207-271 | the page moves exactly as `AfterEdit` says: the edit checks' verdict, then `EditSubmitOutcome`'s cases |
| FatRatesPage.FatCheck | src/components/FatRatesPage.tsx:32-45 | the fat check passes (returns `null`) iff the value is NaN, or lies in (0, 10] and no row other than the one being edited has it; the range message comes iff it is a number outside (0, 10] |
| FatRatesPage.RateCheck | src/components/FatRatesPage.tsx:50-56 | the rate check passes iff the value is NaN or positive; otherwise it says "Rate must be greater than 0" |
| FatRatesPage.AcceptedRow | src/components/FatRatesPage.tsx:28-57 | a form that passes validation holds a fat in (0, 10] that no other row has, and a positive rate |
| FatRatesPage.IndexOfFat | src/components/FatRatesPage.tsx:99 | `findIndex`: -1 iff no row has the fat, otherwise the first position that has it |
| FatRatesPage.Upsert | src/components/FatRatesPage.tsx:98-106 | a new fat is appended as one row; an existing fat has its first row replaced in place, the length and every other row unchanged |
| FatRatesPage.EditRow | src/components/FatRatesPage.tsx:95-96 | editing keeps the length, replaces the rows with the edited fat by the new row and leaves every other row as it was |
| FatRatesPage.DeleteRemoves | src/components/FatRatesPage.tsx:135 | delete keeps exactly the rows with another fat, each as often as in the table, in their order (a subsequence of the table) |
| FatRatesPage.FilterKeepsDistinct | src/components/FatRatesPage.tsx:135 | filtering a table with distinct fats keeps them distinct |
| FatRatesPage.FilterKeepsSorted | src/components/FatRatesPage.tsx:135 | filtering a table sorted by fat keeps it sorted |
| FatRatesPage.DistinctUnderPermutation | src/components/FatRatesPage.tsx:109 | sorting (any reordering) keeps fats distinct |
| FatRatesPage.SubmitKeepsDistinct | src/components/FatRatesPage.tsx:37-109 | a row the fat check accepts keeps a table's fats distinct after an edit or an add, and the stored table is ascending by fat |
| FatRatesPage.ValidatedAddAppends | src/components/FatRatesPage.tsx:98-106 | with nothing being edited, a validated fat is new, so adding appends exactly one row and the stored table is the old rows plus the new one |
| FatRatesPage.DeleteKeepsShape | src/components/FatRatesPage.tsx:135 | deleting keeps distinct fats distinct and a sorted table sorted, and no row with the deleted fat remains |
| FatRatesPage.SubmitRejected | src/components/FatRatesPage.tsx:81-83 | a form that fails validation only adds the "Form Validation Failed" summary, which lists at least one failing field |
| FatRatesPage.SubmitUnparsed | src/components/FatRatesPage.tsx:88-91 | a validated form whose values do not read as a row (see Left out) leaves the page as it was |
| FatRatesPage.AfterSubmit | src/components/FatRatesPage.tsx:78-123 | a form failing validation only adds its summary; the saved tables change only by the new table, and only for a valid form; at most two notices are added |
| FatRatesPage.SubmitStored | src/components/FatRatesPage.tsx:78-123 | a valid form stores and saves the sorted table with the new row; it announces an update when a row was being edited or the fat already existed and an addition otherwise; a failed save adds "Failed to Save Fat Rate" and keeps the form open, a successful one resets and closes it |
| FatRatesPage.SubmitKeepsTable | src/components/FatRatesPage.tsx:78-123 | submitting keeps the table's fats distinct, and a changed table is ascending by fat |
| FatRatesPage.RatesPage.constructor | src/components/FatRatesPage.tsx:16-26 | the page starts with an empty table, no edit, the modal closed and the form at 0 / 0 |
| FatRatesPage.RatesPage.HandleLoaded | src/components/FatRatesPage.tsx:61-66 | the loaded table replaces the page's; nothing else changes |
| FatRatesPage.RatesPage.HandleLoadFailed | src/components/FatRatesPage.tsx:67-70 | a failed load adds "Failed to Load Fat Rates" with the parsed message; nothing else changes |
| FatRatesPage.RatesPage.HandleChange | src/hooks/useFormValidation.ts:119-125 | one form value changes; nothing else on the page changes |
| FatRatesPage.RatesPage.HandleEdit | src/components/FatRatesPage.tsx:125-130 | the form takes the row's fat and rate, the row is marked as edited and the modal opens; nothing else changes |
| FatRatesPage.RatesPage.HandleCloseModal | src/components/FatRatesPage.tsx:149-153 | the form is reset, no row is edited and the modal closes; nothing else changes |
| FatRatesPage.RatesPage.HandleSubmit | src/components/FatRatesPage.tsx:78-123 | the page's new state is `AfterSubmit` of the old one, whose outcomes `SubmitRejected` (the validation summary), `SubmitStored` and `SubmitKeepsTable` state |
| FatRatesPage.RatesPage.HandleDelete | src/components/FatRatesPage.tsx:132-145 | unconfirmed, nothing changes; confirmed, the table loses every row with that fat, is saved, and a deleted or a "Failed to Delete Fat Rate" notice follows, while the form, the edited row and the modal stay |
| Session.Store.constructor | src/utils/auth.ts:4 | the store starts with both slots empty and no reload scheduled |
| Session.Store.SaveProfile | src/utils/auth.ts:16 | the profile slot holds the signed-in user; the token slot is untouched |
| Session.Store.SaveToken | src/utils/api.ts:182-184 | the token slot holds the token; the profile slot is untouched |
| Session.Store.RemoveToken | src/utils/api.ts:190 | the token slot is emptied; the profile slot is untouched |
| Session.Store.ClearSession | src/utils/auth.ts:64-65 | both slots are emptied, so nobody is authenticated; no reload is scheduled |
| Session.Store.ForceLogout | src/utils/auth.ts:42-47 | both slots are emptied at once, so nobody is authenticated, and only afterwards one reload is scheduled, 100 ms later |
| Session.RoleGates | src/utils/auth.ts:70-93 | with no stored user every role check is false; `canAccessAdvancedFeatures` and `canModifyData` agree and hold exactly for "admin" and "user"; `isAdmin` holds exactly for "admin"; a helper has neither gate |
| Auth.LoginOutcome | src/utils/auth.ts:11-24 | sign-in succeeds iff the reply reports success with a user, and then returns exactly its username and role; a refused reply throws with status 401; a thrown request is rethrown |
| Auth.Login | src/utils/auth.ts:7-29 | the result is `LoginOutcome` of the reply; the profile slot holds exactly the returned user on success and is not written otherwise; a token in the reply is kept |
| Auth.Logout | src/utils/auth.ts:31-40 | whatever the server answers, including a thrown request, both slots end up empty and nobody is authenticated |
| Auth.VerifyAuth | src/utils/auth.ts:59-68 | a thrown request empties both slots and answers false; otherwise the answer is the reply's `success` and the slots are untouched |
| Api.Normalize | src/utils/api.ts:10-35 | anything but an object or array comes back unchanged; an array stays an array of the same length and an object stays an object |
| Api.NormalizeMembers | src/utils/api.ts:25-29 | the copy keeps every key at its place and rewrites only object-like values |
| Api.NormalizeShapes | src/utils/api.ts:11-15 | falsy values and primitives come back unchanged; an array keeps its length and order and is normalized element by element |
| Api.NormalizeRenamesId | src/utils/api.ts:18-29 | an object with a truthy `_id` comes back with `id` holding that (normalized) value and no `_id`; every other key reads as before, normalized |
| Api.NormalizeKeepsFalsyId | src/utils/api.ts:18-23 | an object whose `_id` is absent or falsy keeps its keys in order, `_id` included, and gains no new `id` |
| Api.NormalizeReachesNormalForm | src/utils/api.ts:10-35 | no object in the result, at any depth, has a truthy `_id` |
| Api.NormalFormIsFixed | src/utils/api.ts:10-35 | a value with no truthy `_id` at any depth is returned exactly as it is |
| Api.NormalizeIdempotent | src/utils/api.ts:10-35 | normalizing twice is normalizing once |
| Api.Classify | src/utils/api.ts:78-128 | an unreadable body is refused with "Invalid response format" and the status; an answer is accepted iff it has a body and an ok status, and then it is the normalized body; a revocation has status 403; every refusal carries the status |
| Api.ClassifyRevocation | src/utils/api.ts:91-108 | an answer revokes the session iff it is a failed 403 whose message is the access-denied sentinel; it then throws the revocation text with status 403 and the body marked `accessDenied: true`, every other member kept |
| Api.ClassifyOthers | src/utils/api.ts:111-127 | a failed 400 with truthy `errors` throws carrying them as `validationErrors`; any other failure throws the server's message or "An error occurred" with the body; an answer is returned, normalized, iff its status is 2xx |
| Api.HandleResponse | src/utils/api.ts:78-128 | returns or throws as `Classify` says; for the sentinel it first emits `USER_ACCESS_DENIED` to the listeners present, then forces the logout (both slots empty, a reload scheduled), then throws; other answers leave the session alone |
| Api.Revoke | src/utils/api.ts:96-102 | the emitted event reaches exactly the listeners registered at that moment, and the forced logout follows it |
| Api.Request | src/utils/api.ts:141-148 | a request that cannot reach the server throws the network failure before any answer is read; otherwise it is `handleResponse` of the answer |
| Api.Login | src/utils/api.ts:176-187 | the token slot is written only when the reply carries a truthy token; nothing else is written unless the answer revokes the session |
| Api.Logout | src/utils/api.ts:189-192 | the token slot is emptied before the request, whatever the server answers |
| Api.DefinedPairs | src/utils/api.ts:200-203 | the kept pairs are exactly the parameters whose value is not `undefined`, as text |
| Api.DefinedPairsInOrder | src/utils/api.ts:200-203 | the pairs are the defined parameters, one each and in their order, as key and shown value |
| Api.EncodeSplits | src/utils/api.ts:199-204 | joining the "key=value" texts with "&" and splitting at "&" gives them back, when no key or value holds "&" |
| Api.QueryString | src/utils/api.ts:199-204 | no parameter object gives "" and only it does; otherwise the text starts with "?", and is just "?" when no parameter is defined |
| Api.QueryStringReadsBack | src/utils/api.ts:199-204 | when some parameter is defined and no key or value holds "&", the text after "?" splits at "&" into exactly one "key=value" per defined parameter, in order |
| Api.UndefinedParamsDropped | src/utils/api.ts:199-204 | adding an `undefined` parameter does not change the query string |
| App.Navigation | src/App.tsx:56-66 | the navigation is a subsequence of the full menu holding exactly the entries offered to the signed-in role |
| App.VisibleToFilters | src/App.tsx:64-66 | the role filter keeps exactly the entries offered to the role, in the order of `allNavigation` |
| App.NavigationByRole | src/App.tsx:56-66 | a helper sees exactly [collection]; admin and user see all five pages in order; any other role, or nobody signed in, sees nothing |
| App.AllNavigationIds | src/App.tsx:56-62 | the full navigation lists collection, users, reports, advances, fatrates, in that order |
| App.InitialPageOffered | src/App.tsx:19-66 | the starting page "collection" is in the navigation of every role that sees any page |
| App.RenderPage | src/App.tsx:84-98 | each known page id gets its own screen, and every other id falls back to the milk collection |
| App.NavigationPagesRender | src/App.tsx:56-98 | among the offered pages, only "collection" shows the milk collection |
| App.AccessDeniedSteps | src/App.tsx:26-47 | the handler first shows a persistent "Access Denied" error, then schedules the forced logout 3000 ms later |
| App.DeniedAlertStays | src/App.tsx:29-42 | the access-denied alert carries the revocation notice and schedules no automatic removal |
| EventBus.Without | src/utils/eventBus.ts:14 | the filtered list holds no registration of the callback and keeps every other registration, with its multiplicity and in order |
| EventBus.WithoutAbsent | src/utils/eventBus.ts:14 | removing a callback that was never registered gives back the same list |
| EventBus.WithoutAfterAppend | src/utils/eventBus.ts:5-15 | registering a callback and then unregistering it gives the list that removing it alone would give |
| EventBus.Bus.constructor | src/utils/eventBus.ts:3 | a new bus has no event registered |
| EventBus.Bus.On | src/utils/eventBus.ts:5-10 | the callback is appended at the end of the event's list (created when missing, duplicates allowed); every other event's list is unchanged |
| EventBus.Bus.Off | src/utils/eventBus.ts:12-15 | an unknown event is a no-op; otherwise that event's list loses every registration of the callback and every other list is unchanged |
| EventBus.Bus.Emit | src/utils/eventBus.ts:17-20 | each registration of the event is called once, in registration order, from the list as it was when `emit` started; with no list nothing is called |
| EventBus.OnThenEmit | src/utils/eventBus.ts:5-20 | after `on`, `emit` of that event calls the earlier registrations followed by the new one, and other events are unaffected |
| EventBus.OnThenOff | src/utils/eventBus.ts:5-15 | after `on(cb)` then `off(cb)`, the event's list is the earlier list without `cb` |
| ErrorHandler.StatusKindBands | src/utils/errorHandler.ts:165-174 | 401 and 403 are auth, 400 and 422 validation, the rest of 4xx client, 500 and above server, 0 network, everything else unknown; each direction of each band holds |
| ErrorHandler.ValidationErrorType | src/utils/errorHandler.ts:176-182 | an explicit `type` wins; otherwise the answer is one of required, format, range, custom, and it is "required" exactly when `msg` or `message` mentions "required" |
| ErrorHandler.SpaceBeforeCapitals | src/utils/errorHandler.ts:186 | inserting spaces keeps a non-empty name non-empty and keeps its last character last |
| ErrorHandler.CapitalizeFirst | src/utils/errorHandler.ts:187 | capitalizing the first character keeps the length |
| ErrorHandler.SpacesUndone | src/utils/errorHandler.ts:186 | taking the inserted spaces out again gives back a name that had none |
| ErrorHandler.FormatFieldName | src/utils/errorHandler.ts:184-189 | an empty name stays empty; the result never starts or ends with white space |
| ErrorHandler.FormatFieldNameReadsBack | src/utils/errorHandler.ts:184-189 | a camelCase name comes out non-empty with a capital first letter, and is the name itself, first letter capitalized, once the inserted spaces are removed ("phoneNumber" becomes "Phone Number") |
| ErrorHandler.ApiFieldErrors | src/utils/errorHandler.ts:43-47 | one field error per entry, in order, naming the field by path, then param, then field, then "unknown" |
| ErrorHandler.DataFieldErrors | src/utils/errorHandler.ts:59-63 | one field error per entry, in order, naming the field by field, then path, then param |
| ErrorHandler.ParseError | src/utils/errorHandler.ts:20-102 | the context is kept; an error with field errors is a validation error; an ApiError keeps its message and status; a plain error without a response that is not an abort and ends with status 0 is a network error |
| ErrorHandler.ParseApiError | src/utils/errorHandler.ts:31-52 | an ApiError keeps its message and status; with an `errors` array in its response it is a validation error whatever its status, with one field error per entry; otherwise its category is that of its status |
| ErrorHandler.FieldNamePrecedence | src/utils/errorHandler.ts:44-60 | when both `path` and `field` are present, ApiError entries are named by `path` and `response.data` entries by `field` |
| ErrorHandler.ParseTransportErrors | src/utils/errorHandler.ts:78-101 | a TypeError mentioning "fetch" is network with status 0; an AbortError is network with status 408; anything else is unknown with its own status or 500, and its own message or the fallback |
| ErrorHandler.FetchFailureIsNetwork | src/utils/errorHandler.ts:78-85 | the browser's failed-request error is classified as network with status 0 |
| ErrorHandler.HandleLoginError | src/utils/errorHandler.ts:122-163 | the login alert carries the parsed status code |
| ErrorHandler.LoginErrorOf | src/utils/errorHandler.ts:129-161 | the alert built from a parsed error carries its status code |
| ErrorHandler.LoginErrorTitles | src/utils/errorHandler.ts:122-163 | the title depends on the status alone (401, 403, 429, 500, 0 each have their own, the rest "Login Failed"); the message is never empty; 401, 403 and 429 use a non-empty parsed message; 500 and 0 always use their fixed message |
| ErrorHandler.LoginTitles | src/utils/errorHandler.ts:132-156 | the same for any parsed error |
| ErrorHandler.RevocationIsAccessDenied | src/utils/errorHandler.ts:286-292 | a revocation thrown by the REST client passes the class's `isAccessDeniedError` (lines 222-226); it passes the module-level one exactly when the revoked body carries no `errors` array, since such an array makes the category validation instead of auth |
| FormValidation.RuleFor | src/hooks/useFormValidation.ts:39 | a field has rules exactly when some rule names it |
| FormValidation.MessageOf | src/hooks/useFormValidation.ts:45-74 | every complaint's message is non-empty, so a failing field is never reported as passing |
| FormValidation.Check | src/hooks/useFormValidation.ts:44-77 | a custom check's complaint always carries a non-empty message |
| FormValidation.ValidateField | src/hooks/useFormValidation.ts:38-78 | the message is empty exactly when the field has no rules or its value passes every check |
| FormValidation.FirstFailureWins | src/hooks/useFormValidation.ts:44-77 | a falsy value of a field that is not required passes; otherwise the complaint is the first of all the checks it fails, in the order required, minLength, maxLength, pattern, min, max, custom, and there is none exactly when it fails none |
| FormValidation.RequiredComesFirst | src/hooks/useFormValidation.ts:44-46 | for a required field the complaint is "required" exactly when the value is falsy or only white space |
| FormValidation.ErrorTypeOf | src/hooks/useFormValidation.ts:112-117 | the type is one of required, format, range, custom; it is required exactly when the message mentions "required", and custom exactly when it mentions none of the keywords |
| FormValidation.BuiltInMessageTypes | src/hooks/useFormValidation.ts:45-58 | the "is required" message is typed required, and the "format is invalid" message is never typed custom |
| FormValidation.ErrorsOverExact | src/hooks/useFormValidation.ts:81-94 | the collected errors hold exactly the ruled fields whose message is non-empty, each with its own message |
| FormValidation.ReportEmpty | src/hooks/useFormValidation.ts:82-94 | the report is empty exactly when every ruled field passes, and it has at most one entry per field |
| FormValidation.Report | src/hooks/useFormValidation.ts:82-94 | the summary is empty exactly when every ruled field passes, and never lists more entries than there are rules |
| FormValidation.CollectErrors | src/hooks/useFormValidation.ts:84-94 | the loop over the ruled fields builds exactly the specified error map and the specified report, in field order |
| FormValidation.AllTouched | src/hooks/useFormValidation.ts:98-101 | the touched map holds exactly the ruled fields, all true |
| FormValidation.HasErrorsIsNotValid | src/hooks/useFormValidation.ts:189-190 | `hasErrors` holds exactly when `isValid` does not |
| FormValidation.AllFieldsPass | src/hooks/useFormValidation.ts:84-109 | every name passing under the collecting loop is every ruled field passing |
| FormValidation.ChangeIsLocal | src/hooks/useFormValidation.ts:119-125 | a change keeps every other field's message and leaves the changed field's message empty |
| FormValidation.ValidatedFormIsValid | src/hooks/useFormValidation.ts:96-109 | after validating, the form is valid exactly when every ruled field passed |
| FormValidation.FormState.constructor | src/hooks/useFormValidation.ts:22-28 | the form starts with the initial values and with no errors and nothing touched |
| FormValidation.FormState.ValidateForm | src/hooks/useFormValidation.ts:80-110 | the values stay; the errors become the failing fields' messages; every ruled field is touched; the answer is true exactly when every field passes; one summary alert titled "Form Validation Failed" is shown exactly when alerts are asked for and something failed |
| FormValidation.FormState.Revalidate | src/hooks/useFormValidation.ts:81-102 | the values stay, the errors and the touched map are replaced as specified, and the report lists the failures |
| FormValidation.FormState.HandleChange | src/hooks/useFormValidation.ts:119-125 | the one value is set, the touched map stays, and that field's message is cleared only when it had one |
| FormValidation.FormState.HandleBlur | src/hooks/useFormValidation.ts:127-132 | the field becomes touched, the values stay, and the field's message is stored |
| FormValidation.FormState.ResetForm | src/hooks/useFormValidation.ts:134-138 | values back to the initial ones, with no errors and nothing touched |
| Alerts.Apply | src/contexts/AlertContext.tsx:231 | spreading a partial alert over an alert: every field the patch sets wins, every other field stays |
| Alerts.ApplyNothing | src/contexts/AlertContext.tsx:231 | an empty patch changes nothing |
| Alerts.WithDefaults | src/contexts/AlertContext.tsx:72-78 | a shown alert keeps the caller's fields and takes a 5000 ms duration, dismissible true and position top-right only where the caller left them unset |
| Alerts.ShownTimers | src/contexts/AlertContext.tsx:82-87 | showing schedules at most one removal, exactly when the alert is neither persistent nor loading and has a non-zero duration, and then after that duration |
| Alerts.Updated | src/contexts/AlertContext.tsx:229-236 | the id stays, the patch is applied, and a non-loading alert always ends with a non-zero duration |
| Alerts.UpdateTimer | src/contexts/AlertContext.tsx:238-244 | an update schedules a removal exactly when a loading alert turns into a non-persistent alert of another kind |
| Alerts.UpdateAll | src/contexts/AlertContext.tsx:228-250 | the list keeps its length and order; exactly the alerts with the id are updated |
| Alerts.UpdateTimersTarget | src/contexts/AlertContext.tsx:238-244 | every removal an update schedules is for the updated id, and none is scheduled when no alert is loading |
| Alerts.WithoutId | src/contexts/AlertContext.tsx:224-226 | exactly the alerts with another id stay, in their order |
| Alerts.WithoutKind | src/contexts/AlertContext.tsx:256-258 | exactly the alerts of other kinds stay, in their order |
| Alerts.RemovalCounts | src/contexts/AlertContext.tsx:224-258 | removing by id or by kind keeps every other alert exactly as often as it was queued, and none of the removed |
| Alerts.JoinLinesSplits | src/contexts/AlertContext.tsx:154 | joining lines that hold no line break with "\n" and splitting again gives the lines back |
| Alerts.Bullets | src/contexts/AlertContext.tsx:154 | one "• message" line per error, in order |
| Alerts.ValidationSummary | src/contexts/AlertContext.tsx:146-161 | no alert for no errors; one error gives its own message under "Validation Error"; several give the count in the title; the caller's title wins when non-empty; always an error alert of 5000 ms |
| Alerts.SummaryLines | src/contexts/AlertContext.tsx:153-160 | with several errors, the message reads back as exactly one bullet line per error |
| Alerts.ApiErrorRoute | src/contexts/AlertContext.tsx:164-191 | an array of errors goes to the validation summary, and only that does; otherwise a message (titled "Error <status>" when there is a status), an Error object, a string, and the default message, in that order |
| Alerts.AlertQueue.constructor | src/contexts/AlertContext.tsx:66 | no alerts and no timers |
| Alerts.AlertQueue.ShowAlert | src/contexts/AlertContext.tsx:70-90 | the alert with its defaults is appended, its removal timer if any is scheduled, and its id is returned |
| Alerts.AlertQueue.ShowTyped | src/contexts/AlertContext.tsx:92-130 | a success, error, warning or info alert of 5000 ms, with the caller's options spread over it, is shown |
| Alerts.AlertQueue.ShowLoading | src/contexts/AlertContext.tsx:132-140 | a persistent, non-dismissible loading alert is appended and nothing is scheduled |
| Alerts.AlertQueue.ShowConfirmation | src/contexts/AlertContext.tsx:193-222 | a persistent warning titled "Confirmation Required", with Confirm and Cancel buttons, is appended and nothing is scheduled |
| Alerts.AlertQueue.ShowValidationErrors | src/contexts/AlertContext.tsx:142-162 | every error alert is dropped first, then the summary, if any, is appended |
| Alerts.AlertQueue.ShowApiError | src/contexts/AlertContext.tsx:164-191 | the queue changes as the route says: a validation summary titled "Validation Failed", or one error alert |
| Alerts.AlertQueue.RemoveAlert | src/contexts/AlertContext.tsx:224-226 | the alerts with the id are removed and the timers stay |
| Alerts.AlertQueue.UpdateAlert | src/contexts/AlertContext.tsx:228-250 | the alerts with the id are updated and the removals the update calls for are scheduled |
| Alerts.AlertQueue.ClearAlerts | src/contexts/AlertContext.tsx:252-254 | no alerts remain, and the timers stay |
| Alerts.AlertQueue.ClearAlertsByType | src/contexts/AlertContext.tsx:256-258 | the alerts of that kind are removed, and the timers stay |
| Advances.Searched | src/components/AdvanceManagement.tsx:48-58 | exactly the non-null entries whose farmer name or description contains the search term, ignoring case |
| Advances.SearchedCounts | src/components/AdvanceManagement.tsx:48-58 | a matching advance is kept exactly as often as it is in the ledger, any other not at all |
| Advances.SearchIgnoresCase | src/components/AdvanceManagement.tsx:54-57 | searching for a term and for its lower-case form matches the same advances |
| Advances.NewestFirstIsTotal | src/components/AdvanceManagement.tsx:59-63 | the newest-first comparator is a total preorder, so sorting by it is well defined |
| Advances.FilteredAdvances | src/components/AdvanceManagement.tsx:48-63 | the matching entries and no others, each as often as in the ledger, newest first |
| Advances.EmptySearchKeepsAll | src/components/AdvanceManagement.tsx:48-58 | an empty search keeps every non-null entry |
| Advances.LedgerBalances | src/components/AdvanceManagement.tsx:159-169 | the net balance equals what was given minus what was repaid, and both of those are never negative |
| Advances.TotalAdvances | src/components/AdvanceManagement.tsx:159-169 | the net total is what was given minus what was repaid |
| Advances.SignedSumSplits | src/components/AdvanceManagement.tsx:159-169 | the signed sum of the ledger splits into the positive and the negative entries |
| Advances.PrependedTotals | src/components/AdvanceManagement.tsx:159-169 | a new first entry moves the net total by its amount, and moves the given or the repaid total by its size, depending on its sign |
| Advances.AdvanceVerdict | src/components/AdvanceManagement.tsx:69-112 | a rejection carries one of the four messages; an accepted entry has a non-zero amount and a trimmed, non-empty description |
| Advances.AdvanceGuardOrder | src/components/AdvanceManagement.tsx:69-112 | the amount, the farmer and the farmer's status are checked in that order; an entry is accepted exactly when all four checks pass; it carries the parsed amount and the farmer's name |
| Advances.SubmitRejected | src/components/AdvanceManagement.tsx:67-90 | a rejected entry shows its message and changes nothing else; nothing is sent |
| Advances.SubmitStored | src/components/AdvanceManagement.tsx:106-116 | a stored entry is sent and goes first in the ledger; the net total moves by its amount; the form is reset and closed |
| Advances.SubmitNotStored | src/components/AdvanceManagement.tsx:106-123 | an entry sent but not stored leaves the ledger and the form as they were and shows an error |
| Advances.AfterSubmit | src/components/AdvanceManagement.tsx:65-127 | the farmers never change; a rejected entry only shows its message; the sent records change only by the accepted entry; the ledger changes only by the stored advance put first |
| Advances.AdvancePage.constructor | src/components/AdvanceManagement.tsx:12-24 | empty lists, a blank form dated now, no error, the modal closed |
| Advances.AdvancePage.HandleLoaded | src/components/AdvanceManagement.tsx:26-46 | a load sets both lists and clears the error; a failed load or refresh keeps the lists and shows its own message; the form, the modal and the sent records never change |
| Advances.AdvancePage.ResetForm | src/components/AdvanceManagement.tsx:129-139 | a blank form, no error, the modal closed, the lists untouched |
| Advances.AdvancePage.HandleSubmit | src/components/AdvanceManagement.tsx:65-127 | the page moves exactly as the submit transition says; the lemmas above state the transition's cases |
| Reports.PdfOptionsForLongPeriods | src/components/Reports.tsx:84-86 | the PDF options are hidden exactly for the week, month and last-month periods |
| Reports.OrderIsTotal | src/components/Reports.tsx:268-298 | each of the eight sort orders (four keys, two directions) is a total preorder |
| Reports.Kept | src/components/Reports.tsx:213-264 | a kept collection lies in the period and, when a farmer is chosen, belongs to that farmer; with no farmer, no search and blank filters a collection is kept exactly when it lies in the period |
| Reports.FilteredCollections | src/components/Reports.tsx:213-303 | exactly the collections meeting the period, farmer, search and advanced filters, each as often as in the input, in the chosen order |
| Reports.TypeFilterKeeps | src/components/Reports.tsx:261-262 | "manual" keeps only manually edited collections and "auto" only automatic ones |
| Reports.BlankFiltersKeepPeriod | src/components/Reports.tsx:226-264 | with no farmer, no search, empty bounds and every type, exactly the collections of the period remain |
| Reports.NumericSortDirection | src/components/Reports.tsx:276-297 | on amount, liters or fat the list is non-decreasing when ascending and non-increasing when descending |
| Reports.TotalPages | src/components/Reports.tsx:323 | no pages exactly for no collections; otherwise the fewest pages of 50 that hold them all |
| Reports.PageSlice | src/components/Reports.tsx:324-327 | a page holds at most 50 collections: the ones at its own positions, and none past the end |
| Reports.PagesPrefix | src/components/Reports.tsx:323-327 | the first k pages, one after the other, are the list's first 50k collections |
| Reports.PagesRebuildList | src/components/Reports.tsx:323-327 | all the pages in order put the list back together, with nothing lost or repeated |
| Reports.PageWindowShape | src/components/Reports.tsx:1783-1793 | there are min(5, pages) buttons, numbered consecutively within range, and the current page has a button whenever it is in range |
| Reports.Pager.constructor | src/components/Reports.tsx:52 | the list starts at page 1 |
| Reports.Pager.Previous | src/components/Reports.tsx:1775 | one page back, never below 1 |
| Reports.Pager.Next | src/components/Reports.tsx:1811 | one page on, never past the last page |
| Reports.Pager.GoTo | src/components/Reports.tsx:1798 | the page chosen |
| Reports.Pager.Reset | src/components/Reports.tsx:305-308 | back to page 1 |
| Reports.Mean | src/components/Reports.tsx:337-350 | the mean times the count is the sum, and the mean of nothing is 0 |
| Reports.FarmerIds | src/components/Reports.tsx:341 | exactly the farmers with a collection, never more of them than collections |
| Reports.MetricsOf | src/components/Reports.tsx:330-354 | the count is the number of collections and splits into manual and automatic ones; active farmers never outnumber collections; with no collections every average is 0 |
| Reports.Growth | src/components/Reports.tsx:372-385 | against a positive previous total, the growth in percent takes the previous total to the current one; otherwise it is 0 |
| Reports.GrowthOf | src/components/Reports.tsx:357-385 | with no collections in the previous period every growth figure is 0 |
| Reports.NewestCollectionFirstIsTotal | src/components/Reports.tsx:427 | the latest-first comparator on date and time is a total preorder |
| Reports.LastCollection | src/components/Reports.tsx:426-428 | none exactly for no collections; otherwise the date of a collection no other collection is later than |
| Reports.StatOf | src/components/Reports.tsx:389-430 | a farmer's row names the farmer; it counts collections exactly when the farmer has one; the manual edits never outnumber them; each mean per collection times the count is the total; no collections means zero totals, zero mean fat and no last date |
| Reports.HasCollectionsOf | src/components/Reports.tsx:390 | a farmer has collections in the list exactly when some collection carries the farmer's id |
| Reports.AllStats | src/components/Reports.tsx:389-430 | one row per farmer, in the farmers' order |
| Reports.FarmerStats | src/components/Reports.tsx:388-433 | exactly the rows of farmers with a collection, largest total amount first |
| Reports.FarmerStatsRows | src/components/Reports.tsx:388-433 | every row belongs to a listed farmer and is that farmer's figures; every listed farmer with a collection has a row |
| Reports.DayIndex | src/components/Reports.tsx:439 | the position of the day among the accumulated days, or -1 exactly when it has none |
| Reports.DailyData | src/components/Reports.tsx:436-449 | the loop over the collections builds exactly the specified days |
| Reports.AddToDaysDistinct | src/components/Reports.tsx:439-441 | each step keeps the days' dates distinct |
| Reports.AddToDaysDates | src/components/Reports.tsx:438-441 | each step adds the collection's date to the dates, and nothing else |
| Reports.SumAfterUpdate | src/components/Reports.tsx:442-445 | updating one day moves the sum of the counts by the difference |
| Reports.AddToDaysCount | src/components/Reports.tsx:444 | each step adds one to the sum of the counts |
| Reports.DaysOverShape | src/components/Reports.tsx:436-449 | one day per date that occurs, no two alike, with the counts adding up to the number of collections |
| Reports.LaterFirstIsTotal | src/components/Reports.tsx:453 | the latest-date-first comparator is a total preorder |
| Reports.DayStatsOf | src/components/Reports.tsx:452 | one row per day, in order |
| Reports.DayStatsOfShape | src/components/Reports.tsx:451-452 | turning each day's farmers into a count keeps the dates, their distinctness and the counts |
| Reports.DistinctUnderPermutation | src/components/Reports.tsx:453 | reordering the rows keeps their dates distinct |
| Reports.DailyStats | src/components/Reports.tsx:451-453 | the day rows, reordered latest first |
| Reports.DailyStatsShape | src/components/Reports.tsx:436-453 | one row per date that occurs, no two alike, latest date first, with the counts adding up to the number of collections |
| UsersPage.FilteredUsers | src/components/UsersPage.tsx:251-262 | exactly the farmers whose name or phone number contains the search term, ignoring case, each as often as listed, in list order |
| UsersPage.FilteredHelpers | src/components/UsersPage.tsx:540-550 | exactly the helpers whose name or username contains the term ignoring case, or whose phone number contains it as typed, each as often as listed, in list order |
| UsersPage.EmptySearchKeepsAll | src/components/UsersPage.tsx:251-262 | an empty search lists every farmer and every helper, in order |
| UsersPage.UserSearchIgnoresCase | src/components/UsersPage.tsx:257-260 | searching for a term and for its lower-case form lists the same farmers |
| UsersPage.SizedVerdict | src/hooks/useFormValidation.ts:44-56 | a required field with length limits accepts exactly the texts that are not blank and are within the limits |
| UsersPage.PatternVerdict | src/hooks/useFormValidation.ts:44-75 | a required patterned field whose custom check repeats the pattern accepts exactly the filled texts within the length limits that match, and never reports the custom message |
| UsersPage.PhoneVerdict | src/components/UsersPage.tsx:157-166 | a phone number passes exactly when it is filled in and has 10 to 15 digits, spaces, dashes or brackets after an optional plus; the custom message is never the one shown |
| UsersPage.UsernameVerdict | src/components/UsersPage.tsx:188-199 | a username passes exactly when it is filled in, 3 to 50 characters long, and only letters, digits and underscores; the custom message is never the one shown |
| UsersPage.UserFormFields | src/components/UsersPage.tsx:145-173 | the farmer form passes exactly when its name, phone number and address each pass their own rule |
| UsersPage.UserFormVerdict | src/components/UsersPage.tsx:145-173 | the farmer form is sent exactly when the name has 2 to 100 characters, the phone number has the phone shape and the address has 5 to 500 characters, none of them blank |
| UsersPage.HelperFormFields | src/components/UsersPage.tsx:175-215 | the helper form passes exactly when each of its four fields passes its own rule |
| UsersPage.HelperFormVerdict | src/components/UsersPage.tsx:175-215 | the helper form is sent exactly when the name has 2 to 100 characters, the username meets its rule, the password has at least 6 characters and the phone number has the phone shape |
| UsersPage.UpdateById | src/components/UsersPage.tsx:282 | the list keeps its length and order; exactly the entries with the id are replaced |
| UsersPage.RemoveById | src/components/UsersPage.tsx:342 | exactly the entries with another id stay, each as often as before, in their order |
| UsersPage.Deactivated | src/components/UsersPage.tsx:388 | the copy is inactive, stamped with the time and the admin reason, and agrees with the farmer on every other field |
| UsersPage.Reactivated | src/components/UsersPage.tsx:416 | the copy is active with both deactivation fields cleared, and agrees with the farmer on every other field |
| UsersPage.ReactivateUndoesDeactivate | src/components/UsersPage.tsx:388-416 | reactivating a deactivated active farmer with no deactivation record gives the farmer back |
| UsersPage.StatusChangeIsLocal | src/components/UsersPage.tsx:388-416 | a status change alters only the farmers with the id, and only their status fields; every farmer keeps its place |
| UsersPage.RemoveLeavesNoneWithId | src/components/UsersPage.tsx:342 | after a deletion no farmer has the id, and every other farmer is still listed |
| UsersPage.NameOr | src/components/UsersPage.tsx:331-332 | the farmer's name when it is found and non-empty; never empty unless the fallback is |
| UsersPage.FindHelper | src/components/UsersPage.tsx:476 | none exactly when no helper has the id; otherwise the first listed helper with that id |
| UsersPage.HelperNameOr | src/components/UsersPage.tsx:476-477 | the name shown is never empty |
| UsersPage.UserSubmitRejected | src/components/UsersPage.tsx:267-269 | an invalid farmer form only adds the "Form Validation Failed" summary, which lists at least one failing field |
| UsersPage.UserSubmitStored | src/components/UsersPage.tsx:274-308 | a stored farmer replaces the edited one or is appended; success is announced; the matching event is emitted; the form is reset and closed; nothing else changes |
| UsersPage.UserSubmitFailed | src/components/UsersPage.tsx:276-303 | a refused or empty answer adds one error under the add or update title, carrying the refusal's message, and changes nothing else |
| UsersPage.AfterUserSubmit | src/components/UsersPage.tsx:264-320 | an invalid form only adds its summary; the helper side never changes; exactly one notice is added; the farmers change only for a valid form the server stored |
| UsersPage.UserReplied | src/components/UsersPage.tsx:274-308 | whatever the server answers, the helper side stays, one notice is added, and the farmers change only for a stored farmer |
| UsersPage.HelperSubmitRejected | src/components/UsersPage.tsx:435 | an invalid helper form only adds the "Form Validation Failed" summary, which lists at least one failing field |
| UsersPage.HelperSubmitOutcome | src/components/UsersPage.tsx:433-464 | a returned helper replaces the edited one or is appended with its success message; any answer that does not throw resets and closes the form, even without a helper; a thrown error only adds its alert |
| UsersPage.AfterHelperSubmit | src/components/UsersPage.tsx:433-464 | an invalid form only adds its summary; the farmer side never changes; at most one notice is added; the helpers change only for a valid form the server answered with a helper |
| UsersPage.UserDirectory.constructor | src/components/UsersPage.tsx:131-143 | empty lists, blank forms, both modals closed, no alerts and no events |
| UsersPage.UserDirectory.HandleUsersLoaded | src/components/UsersPage.tsx:218-230 | only the farmers list changes, to the list loaded |
| UsersPage.UserDirectory.HandleHelpersLoaded | src/components/UsersPage.tsx:232-245 | only an administrator loads helpers; a list replaces the helpers, an answer without one changes nothing, a thrown error adds one alert |
| UsersPage.UserDirectory.SetUserModal | src/components/UsersPage.tsx:363-373 | the farmer form is blank, nobody is being edited, and the modal is open or closed as asked |
| UsersPage.UserDirectory.HandleEdit | src/components/UsersPage.tsx:322-328 | the farmer is being edited, the form holds the farmer's fields, and the modal is open |
| UsersPage.UserDirectory.HandleSubmit | src/components/UsersPage.tsx:264-320 | the page moves exactly as the farmer submit transition says; the submit lemmas state its cases |
| UsersPage.UserDirectory.HandleDelete | src/components/UsersPage.tsx:330-361 | a cancelled deletion changes nothing; a deletion removes the farmer, announces it by name and emits the event; a thrown error only adds its alert |
| UsersPage.UserDirectory.HandleDeactivateUser | src/components/UsersPage.tsx:376-402 | only a confirmed, successful call changes the list, to the deactivated copies, with its announcement and event; a thrown error only adds its alert |
| UsersPage.UserDirectory.HandleReactivateUser | src/components/UsersPage.tsx:404-430 | only a confirmed, successful call changes the list, to the reactivated copies, with its announcement and event; a thrown error only adds its alert |
| UsersPage.UserDirectory.SetHelperModal | src/components/UsersPage.tsx:528-538 | the helper form is blank, no helper is being edited, and the modal is open or closed as asked |
| UsersPage.UserDirectory.HandleHelperEdit | src/components/UsersPage.tsx:466-473 | the helper is being edited, the form holds its fields with an empty password, and the modal is open |
| UsersPage.UserDirectory.HandleHelperSubmit | src/components/UsersPage.tsx:433-464 | the page moves exactly as the helper submit transition says, whose cases `HelperSubmitRejected` (the validation summary) and `HelperSubmitOutcome` state |
| UsersPage.UserDirectory.HandleHelperDelete | src/components/UsersPage.tsx:475-498 | only a confirmed, successful call removes the helper and announces it by name; a thrown error only adds its alert |
| UsersPage.UserDirectory.HandleHelperUpdate | src/components/UsersPage.tsx:500-526 | a helper sent back replaces the one with the id, with the password or status message; an answer without one changes nothing; a thrown error only adds its alert |
| UsersPage.RangeCollections | src/components/UsersPage.tsx:1061-1081 | exactly the collections within the dates, amounts and fat bounds that are set, in order |
| UsersPage.RangeAdvances | src/components/UsersPage.tsx:1083-1099 | exactly the advances within the dates, in order |
| UsersPage.RangeKeepsCounts | src/components/UsersPage.tsx:1061-1099 | each kept collection and advance appears as often as in the input, and every other not at all |
| UsersPage.DayOf | src/components/UsersPage.tsx:1070-1074 | the calendar day of a timestamp is a prefix of it |
| UsersPage.EndDayKept | src/components/UsersPage.tsx:1070-1074 | a record whose day is the end date is kept: the end bound covers the whole day |
| UsersPage.NoFiltersKeepAll | src/components/UsersPage.tsx:1061-1099 | with no bound set, every collection and every advance is kept |
| UsersPage.TighterFiltersKeepFewer | src/components/UsersPage.tsx:1061-1081 | tighter bounds keep a subsequence of what looser bounds keep |
| UsersPage.RangeTotalsOf | src/components/UsersPage.tsx:1101-1106 | the count is the number of collections kept; the net is the amount minus the advances; with nothing kept the sums and the mean fat are 0; otherwise the mean fat times the count is the sum of fat |
| UsersPage.UserStatsOf | src/components/UsersPage.tsx:101-129 | the statistics sent back, or the zero statistics when there are none or the call threw |
| UsersPage.ZeroStatsConsistent | src/components/UsersPage.tsx:104-127 | the zero statistics agree with themselves: the counts match the empty lists and the net is the amount less the advances |
| UsersPage.CardFigures | src/components/UsersPage.tsx:38-66 | without an id, or without statistics, the card shows 0 collections and 0 liters; otherwise the figures sent back |
| Types.FindUser | src/components/AdvanceManagement.tsx:75 | none exactly when no farmer has the id; otherwise the first listed farmer with that id |
| JsonValue.Put | src/utils/api.ts:105-116 | after setting a key, the key reads the new value and every other key reads as before |
| JsonValue.Remove | src/utils/api.ts:22 | after deleting a key, it is absent and every other key reads as before |
| JsonValue.SpreadWith | src/utils/api.ts:105-116 | spreading a value and adding a key gives an object in which the key reads the new value, every other key reads as the spread value's own members, and a primitive spreads to nothing |
| Numbers.JsParseFloat | src/components/MilkCollection.tsx:143-144 | blank text is NaN; any other text reads as `Number` reads it (see Left out for the numerals read) |
| Numbers.JsNumber | src/components/FatRatesPage.tsx:89-90 | blank text reads as 0; a string of digits reads as its decimal value |
| Numbers.JsParseInt | src/components/MilkCollection.tsx:449 | a string of digits reads as its value; text starting with a digit reads as the value of its leading digits |
| Numbers.Fixed2 | src/components/MilkCollection.tsx:147 | rounding to hundredths moves the value by at most half a hundredth |
| Numbers.FixedText | src/components/MilkCollection.tsx:147 | the text ends in a point and two digits, and starts with "-" exactly for a negative value |
| Numbers.FixedTextReadsBack | src/components/MilkCollection.tsx:147 | the text `toFixed(2)` writes reads back, with `Number` and with `parseFloat`, as the rounded value |
| Common.ToLower | src/components/AdvanceManagement.tsx:54-57 | lower-casing keeps the length and maps each character in place, turning the ASCII capitals A-Z into small letters and keeping every other character (see Left out) |
| Common.ToLowerIdempotent | src/components/UsersPage.tsx:257-260 | lower-casing twice is lower-casing once |
| Common.Trim | src/components/AdvanceManagement.tsx:87-111 | the trimmed text neither starts nor ends with white space |
| Common.TrimIsSlice | src/components/AdvanceManagement.tsx:87-111 | the trimmed text is a slice of the text with only white space before and after it |

## Left out

- HTTP transport, `fetch`, the API base URL and the wrappers in `src/utils/storage.ts`: every server answer is a parameter, and a storage wrapper's fallback (`[]` for `getUsers`) is stated where the page receives it.
- Timers and reloads: `setTimeout` and `window.location.reload` are recorded as scheduled delays, never run. Whatever runs when a timer fires is outside the model.
- Date and time-zone arithmetic (`src/utils/timezone.ts`, `getDateRange`, `getPreviousPeriodData`, the 30-day windows, the ISO timestamp of a new advance): which collections fall in a period and the timestamp are parameters, and dates compare as text.
- IEEE-754 arithmetic: numbers are exact reals. Rounding of `toFixed(2)` follows the exact value, and float equality in the exact rate match becomes real equality.
- Regular expressions: the phone and username patterns are written as predicates on strings with the same meaning.
- PDF and HTML generation, the monthly report data, the quality score and the 30-day consistency in `farmerStats`, and all JSX rendering.
- Concurrency: `Promise.all` loads and reloads triggered by the event bus, and stale React closures, are not modelled; each handler runs against the state it is given.
- Random alert ids: ids are parameters of the alert operations.
- Listener callbacks: `EventBus.Bus.Emit` records which registrations are invoked, in order; what a callback does, including one that calls `on` or `off` during `emit`, is not modelled.
- `withErrorHandling`, `getErrorMessage` and the other `ErrorHandler` predicates (`isValidationError`, `isNetworkError`, `isAuthError`, `isServerError`) are one-line reads of the parsed error and are not modelled.
- `formatTime` in `src/components/Reports.tsx:32-39` and `src/components/UsersPage.tsx:992-999` is the same code as in `MilkCollection`; only the latter is modelled (`MilkCollection.FormatTimeOfClock`).
- `setFieldError`, `clearFieldError`, `clearAllErrors`, `hasFieldError`, `getFieldError`, `setMultipleFieldErrors` and `isDirty` of the form hook are not modelled.
- `setFieldValue`, which the farmer and rate pages call to fill their forms (`src/components/UsersPage.tsx:324-326`, `src/components/FatRatesPage.tsx:127-128`), is modelled on those pages as a direct update of the form's values (`UsersPage.UserDirectory.HandleEdit`, `FatRatesPage.RatesPage.HandleEdit`). The pages keep no per-field error or touched maps; those live only in `FormValidation.FormState`. A page's failed validation is modelled as the "Form Validation Failed" summary notice, listing the failing fields (`FormValidation.Report`), which `validateForm` shows through the alert queue (`Alerts.AlertQueue.ShowValidationErrors`).
- `showSuccess`, `showError`, `showWarning` and `showInfo` are modelled together as `Alerts.AlertQueue.ShowTyped`.
- FatRatesPage.RatesPage.HandleSubmit: a form value the validators let through as NaN would store a NaN row in the app; the model reads such a value as no row and leaves the page unchanged. The browser's number input does not produce it.
- Api.QueryString: keys and values are joined as given; the percent-encoding `URLSearchParams` applies is not modelled.
- UsersPage.UserDirectory.HandleSubmit: the `catch` branch of `handleSubmit` is not modelled, because `addUser` and `updateUser` in `src/utils/storage.ts` catch every error and answer a refusal or nothing.
- Numbers.JsNumber: reads only numerals of the form `[+-]digits[.digits]` after trimming; exponents ("1e3"), a missing integer part (".5") or fraction ("12."), "Infinity" and hexadecimal ("0x10") are read as NaN (`None`), unlike `Number`.
- Numbers.JsParseFloat: reads the same numerals as `JsNumber`; it does not read a numeric prefix of other text ("12abc" is NaN here, 12 for `parseFloat`).
- Numbers.JsParseInt: reads leading white space, an optional sign and the leading decimal digits; the "0x" prefix `parseInt` reads as hexadecimal is not modelled ("0x1A" reads as 0 here, 26 for `parseInt`).
- Common.ToLower: folds only the ASCII letters A-Z; other letters are left as they are, whereas `toLowerCase` folds all of Unicode.
- Api.Classify: a body that parses as JSON `null` would make the app throw a `TypeError` when it reads `responseData.message` on a failed answer (`src/utils/api.ts:91`); the model reads a `null` body as an object with no members.
- Reports.MetricsOf: `activeFarmersLast2Months` (`src/components/Reports.tsx:331`, `342`) depends on the current date and the whole collection history, and is not modelled.
- UsersPage.WithinDates: the start and end bounds are compared as "YYYY-MM-DD" calendar days of the text, so the local-time `setHours` of `new Date` and time zones are not modelled.
