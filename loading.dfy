/** What a `load` call leaves behind: the object's new state and what the call returned or raised. */
module Loading {
  import opened Wrappers
  import opened Json

  /**
   * `state` is the object after the call, also when it raised: the fields the
   * call had already assigned keep their new values.
   */
  datatype Loaded<S> = Loaded(state: S, outcome: Result<bool, Error>)

  /** What a property setter leaves in its field: the stored value when the incoming one is equal to it. */
  function Assign(stored: Value, incoming: Value): (r: Value)
    ensures Equal(r, incoming)
  {
    if Equal(stored, incoming) then stored else incoming
  }
}
