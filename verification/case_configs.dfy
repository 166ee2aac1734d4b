/** The attached-items component (`caseConfigs`): it receives the case's
    related `Case_Config__c` records from the UI API, flattens them into table
    rows, and registers itself with the refresh channel while mounted. */
module CaseConfigs {
  import opened Platform

  /** The `{value}` wrapper the UI API puts around every field; the value
      itself may be null. */
  datatype FieldValue<+T> = FieldValue(value: Option<T>)

  /** The `fields` object of one related record. A field the API did not
      return is absent, which `?.` turns into `undefined`. */
  datatype RecordFields = RecordFields(
    configLabel: Option<FieldValue<string>>,
    configType: Option<FieldValue<string>>,
    amount: Option<FieldValue<real>>)

  /** One record of the related list. */
  datatype RelatedRecord = RelatedRecord(id: Id, fields: RecordFields)

  /** The payload of `getRelatedListRecords`; its `records` list may be missing. */
  datatype RelatedListPayload = RelatedListPayload(records: Option<seq<RelatedRecord>>)

  /** One row of the attached-items table: `{id, Label__c, Type__c, Amount__c}`. */
  datatype ConfigRow = ConfigRow(id: Id, configLabel: string, configType: string, amount: real)

  /** `field?.value || ''`: the text when there is a non-empty one, otherwise
      the empty string (an absent field, a null value and `''` are all falsy). */
  function TextOrEmpty(f: Option<FieldValue<string>>): (r: string)
    ensures r == "" <==> f.None? || f.value.value.None? || f.value.value.value == ""
    ensures f.Some? && f.value.value.Some? ==> r == f.value.value.value
  {
    match f
    case Some(FieldValue(Some(s))) => s
    case _ => ""
  }

  /** `field?.value || 0`: the amount when there is a non-zero one, otherwise
      zero (an absent field, a null value and `0` are all falsy). */
  function AmountOrZero(f: Option<FieldValue<real>>): (r: real)
    ensures r == 0.0 <==> f.None? || f.value.value.None? || f.value.value.value == 0.0
    ensures f.Some? && f.value.value.Some? ==> r == f.value.value.value
  {
    match f
    case Some(FieldValue(Some(x))) => x
    case _ => 0.0
  }

  /** The object the `records.map` callback builds for one record. */
  function FlattenRecord(rec: RelatedRecord): ConfigRow
  {
    ConfigRow(rec.id,
              TextOrEmpty(rec.fields.configLabel),
              TextOrEmpty(rec.fields.configType),
              AmountOrZero(rec.fields.amount))
  }

  /** `records.map(...)`: one flattened row per record, in the same order. */
  function FlattenAll(records: seq<RelatedRecord>): (rows: seq<ConfigRow>)
    ensures |rows| == |records|
    ensures forall i :: 0 <= i < |records| ==> rows[i] == FlattenRecord(records[i])
  {
    if records == [] then [] else [FlattenRecord(records[0])] + FlattenAll(records[1..])
  }

  /** `transformData(data)`: no rows when the payload or its record list is
      missing; otherwise one row per record, in order, keeping the record's
      id and defaulting label, type and amount. */
  function TransformData(data: Option<RelatedListPayload>): (rows: seq<ConfigRow>)
    ensures data.None? || data.value.records.None? ==> rows == []
    ensures data.Some? && data.value.records.Some? ==>
      var records := data.value.records.value;
      |rows| == |records| &&
      forall i :: 0 <= i < |records| ==>
        rows[i].id == records[i].id &&
        rows[i].configLabel == TextOrEmpty(records[i].fields.configLabel) &&
        rows[i].configType == TextOrEmpty(records[i].fields.configType) &&
        rows[i].amount == AmountOrZero(records[i].fields.amount)
  {
    match data
    case None => []
    case Some(RelatedListPayload(None)) => []
    case Some(RelatedListPayload(Some(records))) => FlattenAll(records)
  }

  /** The record the UI API would return for a row whose every field is set. */
  function Unflatten(row: ConfigRow): RelatedRecord
  {
    RelatedRecord(row.id, RecordFields(
      Some(FieldValue(Some(row.configLabel))),
      Some(FieldValue(Some(row.configType))),
      Some(FieldValue(Some(row.amount)))))
  }

  /** The payload the UI API would return for the given rows. */
  function Payload(rows: seq<ConfigRow>): RelatedListPayload
  {
    RelatedListPayload(Some(seq(|rows|, i requires 0 <= i < |rows| => Unflatten(rows[i]))))
  }

  /** Flattening loses nothing a row holds: defaults only fill in values that
      are absent, so a payload built from rows flattens back to those rows. */
  lemma TransformPayloadRoundTrip(rows: seq<ConfigRow>)
    ensures TransformData(Some(Payload(rows))) == rows
  {
  }

  /** Flattening is order-preserving and works record by record: the rows of
      two concatenated record lists are the two lists' rows, concatenated. */
  lemma FlattenAllAppend(a: seq<RelatedRecord>, b: seq<RelatedRecord>)
    ensures FlattenAll(a + b) == FlattenAll(a) + FlattenAll(b)
  {
  }

  /** The attached-items component's state. `recordId` is the routing
      parameter the page supplies. */
  class CaseConfigsComponent {
    const recordId: Id
    var configs: seq<ConfigRow>
    var error: Option<WireError>
    var wiredResult: Option<WireResult<RelatedListPayload>>
    var refreshHandlerId: Option<RefreshHandle>
    var isLoading: bool
    /** The last wire result that carried data or an error, if any. */
    ghost var lastSettled: Option<WireResult<RelatedListPayload>>

    /** The table shows what `result` says: its flattened data and no error,
        or no rows and its error. */
    ghost predicate Reflects(result: WireResult<RelatedListPayload>)
      reads this
    {
      (result.data.Some? ==> configs == TransformData(result.data) && error.None?) &&
      (result.data.None? && result.error.Some? ==> configs == [] && error == result.error)
    }

    /** The component is loading exactly until the first wire callback; an
        error is never shown beside rows; rows and error reflect the last
        result that carried data or an error, and are empty before any. */
    ghost predicate Valid()
      reads this
    {
      (isLoading <==> wiredResult.None?) &&
      (error.Some? ==> configs == []) &&
      (lastSettled.None? ==> configs == [] && error.None?) &&
      (lastSettled.Some? ==>
         (lastSettled.value.data.Some? || lastSettled.value.error.Some?) &&
         Reflects(lastSettled.value)) &&
      (wiredResult.Some? && (wiredResult.value.data.Some? || wiredResult.value.error.Some?) ==>
         lastSettled == wiredResult)
    }

    /** The field initialisers: no rows, no error, loading. */
    constructor (recordId: Id)
      ensures Valid()
      ensures this.recordId == recordId
      ensures configs == [] && error == None && wiredResult == None && lastSettled == None
      ensures refreshHandlerId == None && isLoading
    {
      this.recordId := recordId;
      lastSettled := None;
      configs := [];
      error := None;
      wiredResult := None;
      refreshHandlerId := None;
      isLoading := true;
    }

    /** `wiredCaseConfigs(result)`: remember the result; on data show its
        flattened rows and clear the error; otherwise, on an error, record it
        and show no rows; then stop loading. */
    method WiredCaseConfigs(result: WireResult<RelatedListPayload>)
      requires Valid()
      modifies this
      ensures Valid()
      ensures wiredResult == Some(result) && !isLoading
      ensures result.data.Some? ==> configs == TransformData(result.data) && error == None
      ensures result.data.None? && result.error.Some? ==> configs == [] && error == result.error
      ensures result.data.None? && result.error.None? ==>
        configs == old(configs) && error == old(error) && lastSettled == old(lastSettled)
      ensures result.data.Some? || result.error.Some? ==> lastSettled == Some(result)
      ensures refreshHandlerId == old(refreshHandlerId)
    {
      wiredResult := Some(result);
      isLoading := true;
      if result.data.Some? {
        configs := TransformData(result.data);
        error := None;
        lastSettled := Some(result);
      } else if result.error.Some? {
        error := result.error;
        configs := [];
        lastSettled := Some(result);
      }
      isLoading := false;
    }

    /** `connectedCallback()`: store the handle that registering with the
        refresh channel returned. */
    method ConnectedCallback(registered: RefreshHandle)
      requires Valid()
      modifies this`refreshHandlerId
      ensures Valid()
      ensures refreshHandlerId == Some(registered)
    {
      refreshHandlerId := Some(registered);
    }

    /** `disconnectedCallback()`: the handle passed to
        `unregisterRefreshHandler` is the stored one (undefined when the
        component was never connected). The field itself is not cleared. */
    method DisconnectedCallback() returns (released: Option<RefreshHandle>)
      requires Valid()
      ensures released == refreshHandlerId
    {
      released := refreshHandlerId;
    }

    /** `handleSend()`: only writes the record id to the console. */
    method HandleSend()
      requires Valid()
      ensures unchanged(this)
    {
    }
  }

  /** One mounted lifetime: connect with the handle the refresh channel
      gave, receive a wire result, press send, disconnect. The handle
      released on disconnect is the one obtained on connect. */
  method MountedLifetime(recordId: Id, registered: RefreshHandle,
                         result: WireResult<RelatedListPayload>)
    returns (released: Option<RefreshHandle>, shown: seq<ConfigRow>)
    ensures released == Some(registered)
    ensures result.data.Some? ==> shown == TransformData(result.data)
    ensures result.data.None? ==> shown == []
  {
    var component := new CaseConfigsComponent(recordId);
    component.ConnectedCallback(registered);
    component.WiredCaseConfigs(result);
    component.HandleSend();
    shown := component.configs;
    released := component.DisconnectedCallback();
  }
}
