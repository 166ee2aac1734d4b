# Case configuration components, modelled in Dafny

This project models two Salesforce Lightning Web Components from a small CRM.
Together they attach priced "configuration" items to a case.

- `availableConfigs` lists the `Config__c` records that Apex returns. It turns the rows
  the user selects into `Case_Config__c` requests for the current case. It sends those
  requests to Apex with `addConfigsToCase`. It reports the outcome with a toast, and on
  success it dispatches a `RefreshEvent`.
- `caseConfigs` shows the `Case_Config__c` records already related to the case. It gets
  them from the UI API's related-list wire adapter and flattens each record's
  `{value}`-wrapped fields into a table row. It registers a refresh handler while it is
  mounted.

Files:

- `platform.dfy` (module `Platform`) holds the shapes the platform passes in and out:
  wire results `{data, error}`, dispatched events (a toast with title, message and
  variant, or a `RefreshEvent`), and the opaque refresh-handler handle.
- `case_configs.dfy` (module `CaseConfigs`) holds `transformData` and its defaulting
  rules as functions. It also holds the component as a class with the fields `configs`,
  `error`, `wiredResult`, `refreshHandlerId` and `isLoading`.
- `available_configs.dfy` (module `AvailableConfigs`) holds the row projection as a
  function. It also holds the component as a class with the fields `configs`,
  `wiredResult`, `selectedConfigs`, `selectedRows` and `dispatched`. `dispatched` is the
  log of toasts and refresh events, oldest first.

Platform calls become parameters or results:

- A wire callback receives its `{data, error}` result as an argument.
- `handleAdd` receives the settled `addConfigsToCase` promise as an `AddOutcome`
  (`Added` or `AddFailed`). It returns the list it handed to Apex, or `None` when it made
  no call.
- `connectedCallback` receives the handle that `registerRefreshHandler` returned.
  `disconnectedCallback` returns the handle it passes to `unregisterRefreshHandler`.
- JavaScript `undefined`/`null` is `None`. Currency amounts are exact `real` numbers.

Each class has an invariant, `Valid()`, that every method keeps:

- In `caseConfigs`, the component is loading exactly until the first wire callback. An
  error is never shown beside rows. The rows and the error reflect the last wire result
  that carried data or an error, held in the ghost field `lastSettled`: its flattened
  data and no error, or no rows and its error. Before any such result there are no rows
  and no error. A result with neither leaves them as they were.
- In `availableConfigs`, every pending request is for this case and is named by its
  label. The list equals the data of the last wire result that carried data, held in
  the ghost field `lastData`; before any such result the list is empty. The field
  `selectedRows` is always empty: `handleRowSelection` reads the selected rows into a
  local constant of the same name and never assigns the field, and the only assignment
  to it (after a successful add) clears it again. It does not track the selected ids.

The model follows the code. In particular, the code does not:

- remove attached rows from the available list after an add;
- derive a "case is closed" flag;
- guard against a second add or send while one is in flight;
- clear the available list or set an error flag when its load fails (it only logs the
  error and keeps its rows);
- send anything from `handleSend`, which only logs the record id.

## Model

| member | source | states |
|---|---|---|
| CaseConfigs.TextOrEmpty | force-app/main/default/lwc/caseConfigs/caseConfigs.js:52-53 | defaulting to the empty string: the result is empty exactly when the field is absent, its value is null, or the value is `''`; a present value is passed through unchanged |
| CaseConfigs.AmountOrZero | force-app/main/default/lwc/caseConfigs/caseConfigs.js:54 | defaulting to zero: the result is zero exactly when the field is absent, its value is null, or the value is 0; a present value is passed through unchanged |
| CaseConfigs.FlattenAll | force-app/main/default/lwc/caseConfigs/caseConfigs.js:47-58 | `records.map`: exactly one flattened row per record, the i-th row built from the i-th record |
| CaseConfigs.TransformData | force-app/main/default/lwc/caseConfigs/caseConfigs.js:43-59 | no rows when `data` or `data.records` is missing; otherwise as many rows as records, in the same order, each keeping its record's `id` and taking label, type and amount through the defaulting rules |
| CaseConfigs.TransformPayloadRoundTrip | force-app/main/default/lwc/caseConfigs/caseConfigs.js:43-59 | flattening a payload built from rows gives back those rows: the defaults only fill in missing values and never change a value that is present |
| CaseConfigs.FlattenAllAppend | force-app/main/default/lwc/caseConfigs/caseConfigs.js:47-58 | flattening works record by record and keeps order: the rows of `a + b` are the rows of `a` followed by the rows of `b` |
| CaseConfigs.CaseConfigsComponent.constructor | force-app/main/default/lwc/caseConfigs/caseConfigs.js:9-14 | initial state: no rows, no error, no wire result, no handle, loading |
| CaseConfigs.CaseConfigsComponent.WiredCaseConfigs | force-app/main/default/lwc/caseConfigs/caseConfigs.js:29-42 | after the callback, `wiredResult` is the result received and loading is over. On data the rows are `TransformData(data)` and the error is cleared. Otherwise, on an error, the error is stored and the rows are emptied. With neither, rows and error are unchanged. The refresh handle is untouched |
| CaseConfigs.CaseConfigsComponent.ConnectedCallback | force-app/main/default/lwc/caseConfigs/caseConfigs.js:62-64 | stores the handle the refresh registration returned |
| CaseConfigs.CaseConfigsComponent.DisconnectedCallback | force-app/main/default/lwc/caseConfigs/caseConfigs.js:66-68 | the handle unregistered is exactly the stored `refreshHandlerId`; no state changes |
| CaseConfigs.CaseConfigsComponent.HandleSend | force-app/main/default/lwc/caseConfigs/caseConfigs.js:71-73 | changes no component state |
| CaseConfigs.MountedLifetime | force-app/main/default/lwc/caseConfigs/caseConfigs.js:29-68 | over one mounted lifetime (connect, a wire result, send, disconnect), the handle released on disconnect is the handle obtained on connect, and the rows shown are the flattened data, or none |
| AvailableConfigs.ProjectRows | force-app/main/default/lwc/availableConfigs/availableConfigs.js:37-45 | one request per selected row, in the same order. Each request has `Case__c` = the record id and `Name` = `Label__c` = the row's label, and copies the row's type and amount unchanged |
| AvailableConfigs.ProjectRowsForgetsOnlyIds | force-app/main/default/lwc/availableConfigs/availableConfigs.js:37-45 | two selections give the same requests if and only if they have the same length and agree row by row on label, type and amount: the projection drops the row ids and nothing else |
| AvailableConfigs.ProjectRowsAppend | force-app/main/default/lwc/availableConfigs/availableConfigs.js:37-45 | the projection works row by row and keeps order: projecting `a + b` gives the requests of `a` followed by those of `b` |
| AvailableConfigs.AvailableConfigsComponent.constructor | force-app/main/default/lwc/availableConfigs/availableConfigs.js:8-12 | initial state: nothing listed, nothing selected, nothing dispatched |
| AvailableConfigs.AvailableConfigsComponent.WiredConfigs | force-app/main/default/lwc/availableConfigs/availableConfigs.js:23-31 | the result is stored. On data the list is replaced by that data. Otherwise (including on an error) the list is unchanged. Selection and dispatched events are untouched |
| AvailableConfigs.AvailableConfigsComponent.HandleRowSelection | force-app/main/default/lwc/availableConfigs/availableConfigs.js:34-48 | `selectedConfigs` becomes `ProjectRows(recordId, rows)`, which depends only on the rows, so a repeated call gives the same state. It assigns nothing else, so `configs` and `selectedRows` are untouched |
| AvailableConfigs.AvailableConfigsComponent.ShowToast | force-app/main/default/lwc/availableConfigs/availableConfigs.js:71-74 | appends exactly one toast with the given title, message and variant to the dispatched events |
| AvailableConfigs.AvailableConfigsComponent.HandleAdd | force-app/main/default/lwc/availableConfigs/availableConfigs.js:51-68 | with an empty selection: no Apex call, exactly one warning toast, no state change. Otherwise Apex receives exactly the current `selectedConfigs`. On success: one success toast then one `RefreshEvent`, and `selectedConfigs` and `selectedRows` become empty. On failure: one error toast, no refresh, and selection unchanged. The `configs` list is never modified |
| AvailableConfigs.SelectAndAdd | force-app/main/default/lwc/availableConfigs/availableConfigs.js:34-67 | for a session of load, select and add, Apex receives exactly the projection of the selected rows (no call when none is selected). The events are exactly one toast, plus one `RefreshEvent` on success. The selection is empty after a success and unchanged after a failure. The list shown is the loaded one |

## Left out

- Decorators and wire plumbing (`@wire`, `@track`, `@api`, `getRelatedListRecords`, `getAvailableConfigs`) are left out. Their results are arguments of the callback methods.
- Async timing is not modelled. `addConfigsToCase` is a promise in the source, but here its settled outcome is an argument, and `HandleAdd` applies the whole `.then`/`.catch` continuation in one step. A second `handleAdd` that runs before the first promise settles is not modelled.
- `sendCaseData` is imported but never called, so it is not part of this model.
- `handleRefresh` is left out. It only forwards `wiredResult` to `refreshApex`, which is a platform call.
- The internals of `registerRefreshHandler` and `unregisterRefreshHandler` are left out. The handle is an opaque value.
- `caseConfigs.showToast` is left out because the component never calls it.
- `console.log` and `console.error` output is left out.
- The static `columns` arrays are left out because they only configure the table display.
- The `recordId` property is fixed at construction and is never undefined.
- In `caseConfigs`, every record is assumed to have a `fields` object. The source would throw on a record without one.
- `wiredResult` stores the whole callback argument. Nothing inside it is read again in the modelled code.
- Only these values count as falsy: an absent field, a null value, `''` for text and `0` for an amount. Other JavaScript truthiness (`NaN`, values of the wrong type) is not modelled.
- In `availableConfigs`, a row's label, type and amount are each either absent (`None`, for a field that is null on the record) or present. The projection copies them without defaulting, so an absent value stays absent in the request, unlike the defaulting in `caseConfigs`.
