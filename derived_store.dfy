/**
 * Svelte's `derived(input, fn)`, as its first subscriber sees it. `derived`
 * subscribes by calling `input.subscribe(…)`. Given a store, that reports
 * `fn` of the store's value; given the bare `subscribe` function of a
 * writable, which has no `subscribe` member, the call throws a `TypeError`.
 */
module DerivedStore {
  /** What `derived` is given: a store over a current value, or a store's bare `subscribe` function. */
  datatype Input<S> = Store(current: S) | BareSubscribe(current: S)

  /** What the first subscriber gets: the derived value, or the error thrown while subscribing. */
  datatype Outcome<T> = Value(value: T) | Throws(error: string)

  /** The `TypeError` message of calling a missing `subscribe` member. */
  const NotAStore: string := "store.subscribe is not a function"

  /** Subscribing to `derived(input, fn)`: a value exactly when the input is a store, and then `fn` of its value. */
  function FirstValue<S, T>(input: Input<S>, fn: S -> T): (r: Outcome<T>)
    ensures r.Value? <==> input.Store?
    ensures r.Value? ==> r.value == fn(input.current)
    ensures r.Throws? ==> r.error == NotAStore
  {
    match input
    case Store(s) => Value(fn(s))
    case BareSubscribe(_) => Throws(NotAStore)
  }
}
