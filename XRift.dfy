/** src/utils/useXRift.ts: the exported `WorldBaseUrlContext` (the key
    `XRiftContext`) and the `useXRift` accessor, which exposes the provided
    base URL under the name `assetBasePath`. */
module XRift {
  import opened Wrappers
  import opened ReactContext

  const UseXRiftMessage: string := "useXRift must be used within WorldBaseUrlProvider"

  /** The record `useXRift` returns; `assetBasePath` is its only field. */
  datatype XRiftContextValue = XRiftContextValue(assetBasePath: string)

  /** `useXRift()`: throws when no provider of the exported context encloses
      the caller, or when the nearest one provides `null`; otherwise renames
      the provided `baseUrl` to `assetBasePath`, unchanged. */
  function UseXRift(env: Env): (r: Result<XRiftContextValue, Error>)
    ensures r.Failure? <==> !Provided(env, XRiftContext)
    ensures r.Failure? ==> r.error == MissingProvider(UseXRiftMessage)
    ensures r.Success? ==> r.value.assetBasePath == env[XRiftContext].value.baseUrl
  {
    var context := UseContext(env, XRiftContext);
    if context.None? then Failure(MissingProvider(UseXRiftMessage))
    else Success(XRiftContextValue(assetBasePath := context.value.baseUrl))
  }

  /** The two accessors read different contexts: binding one leaves the
      other's answer unchanged. */
  lemma UseXRiftIgnoresWorldAssetContext(env: Env, value: Option<WorldBaseUrlContextValue>)
    ensures UseXRift(Provide(env, WorldAssetContext, value)) == UseXRift(env)
  {
  }

  /** A provider of the exported context whose value is `null` does not
      satisfy `useXRift`: the guard tests the value, not the presence of a
      provider. */
  lemma UseXRiftRejectsNullProvider(env: Env)
    ensures UseXRift(Provide(env, XRiftContext, None)) == Failure(MissingProvider(UseXRiftMessage))
  {
  }
}
