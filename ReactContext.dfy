/** The part of React's context mechanism that the asset hooks rely on,
    made explicit: the contexts visible at a point of the component tree are
    a finite map from context object to the value of the nearest enclosing
    provider. Both contexts of this package are created with the type
    `WorldBaseUrlContextValue | null` and the default `null`, so a provider
    may bind `null` (`None`) as well as a value, and a context with no
    enclosing provider has no entry and reads as `null`. */
module ReactContext {
  import opened Wrappers

  /** The value both contexts carry: `{ baseUrl: string }`. */
  datatype WorldBaseUrlContextValue = WorldBaseUrlContextValue(baseUrl: string)

  /** The two distinct context objects created by `createContext`. They share a
      name and a value type in the source but are different objects, so a
      provider of one is invisible to readers of the other. */
  datatype ContextKey =
    | WorldAssetContext  // module-private, created in src/utils/useWorldAsset.ts
    | XRiftContext       // exported from src/utils/useXRift.ts

  /** The contexts bound at one point of the component tree; `None` is a
      provider whose value is `null`. */
  type Env = map<ContextKey, Option<WorldBaseUrlContextValue>>

  /** The root of a tree that no provider encloses. */
  const EmptyTree: Env := map[]

  /** The error a hook throws. */
  datatype Error = MissingProvider(message: string)

  /** `useContext(key)`: the nearest provider's value, or the default `null`. */
  function UseContext(env: Env, key: ContextKey): Option<WorldBaseUrlContextValue>
  {
    if key in env then env[key] else None
  }

  /** Some provider of `key` with a non-null value encloses the reader: the
      case in which the hooks' `if (!context) throw` guard lets them go on. */
  predicate Provided(env: Env, key: ContextKey) {
    key in env && env[key].Some?
  }

  /** `<key.Provider value={value}>`: the environment seen by the provider's
      children. Reading the provided context there yields exactly `value`,
      whatever an outer provider bound, and every other context reads as it
      did outside. */
  function Provide(env: Env, key: ContextKey, value: Option<WorldBaseUrlContextValue>): (inner: Env)
    ensures UseContext(inner, key) == value
    ensures forall other :: other != key ==> UseContext(inner, other) == UseContext(env, other)
  {
    env[key := value]
  }

  /** Reading any context at the root of a tree with no provider yields the
      default `null`, and of two nested providers of one context the inner
      one is the one read. */
  lemma LookupLaws(env: Env, key: ContextKey, outer: Option<WorldBaseUrlContextValue>,
                   inner: Option<WorldBaseUrlContextValue>)
    ensures UseContext(EmptyTree, key) == None
    ensures UseContext(Provide(Provide(env, key, outer), key, inner), key) == inner
  {
  }
}
