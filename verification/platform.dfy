/** Shapes that the Lightning platform hands to, or takes from, the two
    configuration components: wire results, toast and refresh events, and the
    handle of a refresh-handler registration. Nothing here has behaviour of
    its own; the platform calls themselves are outside the model. */
module Platform {

  /** A JavaScript value that may be `undefined`/`null`. */
  datatype Option<+T> = None | Some(value: T)

  /** A Salesforce record id. */
  type Id = string

  /** The error object a wire adapter or an Apex call reports; it is only
      stored or logged, never inspected, so its content is opaque. */
  datatype WireError = WireError(message: string)

  /** What a wire adapter passes to its callback: an object with a `data`
      and an `error` property, either of which may be absent (the first
      callback typically has neither). */
  datatype WireResult<+D> = WireResult(data: Option<D>, error: Option<WireError>)

  /** The `variant` of a ShowToastEvent. */
  datatype Variant = SuccessVariant | ErrorVariant | WarningVariant

  /** An event a component dispatches: a ShowToastEvent carrying
      title, message and variant, or a `RefreshEvent` from lightning/refresh. */
  datatype DispatchedEvent =
    | Toast(title: string, message: string, variant: Variant)
    | RefreshEvent

  /** The value `registerRefreshHandler` returns; opaque to the component. */
  datatype RefreshHandle = RefreshHandle(key: nat)
}
