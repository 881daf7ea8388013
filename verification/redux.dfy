/** The shape of what the provider hands to an external store. */
module Redux {
  import opened Wrappers

  /** A dispatched action (`AnyAction`): its `type` tag (here `actionType`) and an optional payload. */
  datatype Action<P> = Action(actionType: string, payload: Option<P>)
}
