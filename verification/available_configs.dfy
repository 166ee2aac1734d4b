/** The available-items component (`availableConfigs`): it lists the
    `Config__c` records Apex returns, turns the rows the user selects into
    `Case_Config__c` requests for the current case, and sends them to Apex. */
module AvailableConfigs {
  import opened Platform

  /** A `Config__c` record as `getAvailableConfigs` returns it. A field that
      is null on the record is absent from the row (`undefined`). */
  datatype Config = Config(id: Id, configLabel: Option<string>, configType: Option<string>,
                           amount: Option<real>)

  /** The `Case_Config__c` shape `addConfigsToCase` takes:
      `{Case__c, Name, Label__c, Type__c, Amount__c}`. A value copied from an
      absent row field stays absent. */
  datatype CaseConfigRequest =
    CaseConfigRequest(caseId: Id, name: Option<string>, configLabel: Option<string>,
                      configType: Option<string>, amount: Option<real>)

  /** How the `addConfigsToCase` promise settles. */
  datatype AddOutcome = Added | AddFailed(error: WireError)

  /** The toasts `handleAdd` dispatches. */
  const AddedToast := Toast("Success", "Configs added to Case successfully!", SuccessVariant)
  const AddFailedToast := Toast("Error", "Failed to add Configs to Case.", ErrorVariant)
  const EmptySelectionToast := Toast("Warning", "Please select at least one Config.", WarningVariant)

  /** The object the `selectedRows.map` callback builds for one row. */
  function ToRequest(caseId: Id, row: Config): CaseConfigRequest
  {
    CaseConfigRequest(caseId, row.configLabel, row.configLabel, row.configType, row.amount)
  }

  /** `selectedRows.map(...)`: one request per selected row, in the same
      order, each for the given case, named by the row's label, and carrying
      the row's label, type and amount unchanged (absent ones stay absent). */
  function ProjectRows(caseId: Id, rows: seq<Config>): (requests: seq<CaseConfigRequest>)
    ensures |requests| == |rows|
    ensures forall i :: 0 <= i < |rows| ==>
      requests[i].caseId == caseId &&
      requests[i].name == rows[i].configLabel &&
      requests[i].configLabel == rows[i].configLabel &&
      requests[i].configType == rows[i].configType &&
      requests[i].amount == rows[i].amount
  {
    if rows == [] then [] else [ToRequest(caseId, rows[0])] + ProjectRows(caseId, rows[1..])
  }

  /** Two rows carry the same content when they agree on everything but the id. */
  predicate SameContent(a: Config, b: Config)
  {
    a.configLabel == b.configLabel && a.configType == b.configType && a.amount == b.amount
  }

  /** The projection forgets exactly the row ids: two selections give the
      same requests if and only if they agree, row by row, on label, type
      and amount. */
  lemma ProjectRowsForgetsOnlyIds(caseId: Id, rows: seq<Config>, others: seq<Config>)
    ensures ProjectRows(caseId, rows) == ProjectRows(caseId, others) <==>
      |rows| == |others| && forall i :: 0 <= i < |rows| ==> SameContent(rows[i], others[i])
  {
  }

  /** The projection is order-preserving and works row by row: selecting the
      rows of `a` and then those of `b` gives the requests of `a` followed by
      those of `b`. */
  lemma ProjectRowsAppend(caseId: Id, a: seq<Config>, b: seq<Config>)
    ensures ProjectRows(caseId, a + b) == ProjectRows(caseId, a) + ProjectRows(caseId, b)
  {
  }

  /** The available-items component's state. `dispatched` is every event the
      component has dispatched, oldest first. */
  class AvailableConfigsComponent {
    const recordId: Id
    var configs: seq<Config>
    var wiredResult: Option<WireResult<seq<Config>>>
    var selectedConfigs: seq<CaseConfigRequest>
    var selectedRows: seq<Id>
    var dispatched: seq<DispatchedEvent>
    /** The data of the last wire result that carried data, if any. */
    ghost var lastData: Option<seq<Config>>

    /** Every pending request is for this case and named by its label; the
        list is the data of the last wire result that carried data (empty
        before any); and `selectedRows` is never filled, since the only
        assignment to it clears it. */
    ghost predicate Valid()
      reads this
    {
      (forall i :: 0 <= i < |selectedConfigs| ==>
         selectedConfigs[i].caseId == recordId &&
         selectedConfigs[i].name == selectedConfigs[i].configLabel) &&
      configs == (if lastData.Some? then lastData.value else []) &&
      (wiredResult.Some? && wiredResult.value.data.Some? ==>
         lastData == wiredResult.value.data) &&
      selectedRows == []
    }

    /** The field initialisers: nothing listed, nothing selected, nothing dispatched. */
    constructor (recordId: Id)
      ensures Valid()
      ensures this.recordId == recordId
      ensures configs == [] && wiredResult == None && lastData == None
      ensures selectedConfigs == [] && selectedRows == [] && dispatched == []
    {
      this.recordId := recordId;
      lastData := None;
      configs := [];
      wiredResult := None;
      selectedConfigs := [];
      selectedRows := [];
      dispatched := [];
    }

    /** `wiredConfigs(result)`: remember the result; on data list it; on an
        error only log it, keeping the current list. */
    method WiredConfigs(result: WireResult<seq<Config>>)
      requires Valid()
      modifies this`configs, this`wiredResult, this`lastData
      ensures Valid()
      ensures wiredResult == Some(result)
      ensures result.data.Some? ==> configs == result.data.value && lastData == result.data
      ensures result.data.None? ==> configs == old(configs) && lastData == old(lastData)
    {
      wiredResult := Some(result);
      if result.data.Some? {
        configs := result.data.value;
        lastData := result.data;
      }
    }

    /** `handleRowSelection(event)`: the pending requests become the
        projection of the rows now selected; they depend on those rows and
        the case alone, so repeating the call with the same rows changes
        nothing. `configs` and `selectedRows` are left alone. */
    method HandleRowSelection(rows: seq<Config>)
      requires Valid()
      modifies this`selectedConfigs
      ensures Valid()
      ensures selectedConfigs == ProjectRows(recordId, rows)
    {
      selectedConfigs := ProjectRows(recordId, rows);
    }

    /** `showToast(title, message, variant)`: dispatch one ShowToastEvent. */
    method ShowToast(title: string, message: string, variant: Variant)
      requires Valid()
      modifies this`dispatched
      ensures Valid()
      ensures dispatched == old(dispatched) + [Toast(title, message, variant)]
    {
      dispatched := dispatched + [Toast(title, message, variant)];
    }

    /** `handleAdd()`, with the settled promise given as `outcome`. `sent` is
        what went to `addConfigsToCase` (None: no call was made). With nothing
        selected only a warning toast is dispatched. Otherwise the current
        requests are sent; on success a success toast and one RefreshEvent
        are dispatched and the selection is cleared; on failure only an error
        toast is dispatched. The listed configs are never touched. */
    method HandleAdd(outcome: AddOutcome) returns (sent: Option<seq<CaseConfigRequest>>)
      requires Valid()
      modifies this`selectedConfigs, this`selectedRows, this`dispatched
      ensures Valid()
      ensures configs == old(configs)
      ensures old(selectedConfigs) == [] ==>
        sent == None &&
        dispatched == old(dispatched) + [EmptySelectionToast] &&
        selectedConfigs == old(selectedConfigs) && selectedRows == old(selectedRows)
      ensures old(selectedConfigs) != [] ==> sent == Some(old(selectedConfigs))
      ensures old(selectedConfigs) != [] && outcome.Added? ==>
        dispatched == old(dispatched) + [AddedToast, RefreshEvent] &&
        selectedConfigs == [] && selectedRows == []
      ensures old(selectedConfigs) != [] && outcome.AddFailed? ==>
        dispatched == old(dispatched) + [AddFailedToast] &&
        selectedConfigs == old(selectedConfigs) && selectedRows == old(selectedRows)
    {
      if |selectedConfigs| > 0 {
        sent := Some(selectedConfigs);
        match outcome
        case Added =>
          ShowToast(AddedToast.title, AddedToast.message, AddedToast.variant);
          selectedConfigs := [];
          selectedRows := [];
          dispatched := dispatched + [RefreshEvent];
        case AddFailed(_) =>
          ShowToast(AddFailedToast.title, AddFailedToast.message, AddFailedToast.variant);
      } else {
        sent := None;
        ShowToast(EmptySelectionToast.title, EmptySelectionToast.message, EmptySelectionToast.variant);
      }
    }
  }

  /** A user session: the list loads, the user selects `rows`, then presses
      Add and the Apex call settles as `outcome`. Apex receives exactly the
      projection of the selected rows, and exactly one toast is shown. */
  method SelectAndAdd(recordId: Id, listed: seq<Config>, rows: seq<Config>, outcome: AddOutcome)
    returns (sent: Option<seq<CaseConfigRequest>>, events: seq<DispatchedEvent>,
             pending: seq<CaseConfigRequest>, shown: seq<Config>)
    ensures shown == listed
    ensures rows == [] ==> sent == None && events == [EmptySelectionToast] && pending == []
    ensures rows != [] ==> sent == Some(ProjectRows(recordId, rows))
    ensures rows != [] && outcome.Added? ==> events == [AddedToast, RefreshEvent] && pending == []
    ensures rows != [] && outcome.AddFailed? ==>
      events == [AddFailedToast] && pending == ProjectRows(recordId, rows)
  {
    var component := new AvailableConfigsComponent(recordId);
    component.WiredConfigs(WireResult(Some(listed), None));
    component.HandleRowSelection(rows);
    sent := component.HandleAdd(outcome);
    events, pending, shown := component.dispatched, component.selectedConfigs, component.configs;
  }
}
