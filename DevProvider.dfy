/** src/utils/XRiftDevProvider.tsx: the development-time provider, which
    binds the context exported from src/utils/useXRift.ts, and only that
    one, to `{ baseUrl }`. */
module DevProvider {
  import opened Wrappers
  import opened ReactContext
  import opened WorldAsset
  import opened XRift

  /** The environment `<XRiftDevProvider baseUrl={baseUrl}>` gives its
      children, when it is itself placed in `outer`. */
  function XRiftDevProvider(baseUrl: string, outer: Env): (inner: Env)
    ensures Provided(inner, XRiftContext) && inner[XRiftContext].value.baseUrl == baseUrl
    ensures UseContext(inner, WorldAssetContext) == UseContext(outer, WorldAssetContext)
  {
    Provide(outer, XRiftContext, Some(WorldBaseUrlContextValue(baseUrl := baseUrl)))
  }

  /** Under the development provider `useXRift` succeeds, even for an empty
      base URL, and reports exactly the configured base URL. */
  lemma DevProviderSuppliesXRift(baseUrl: string, outer: Env)
    ensures UseXRift(XRiftDevProvider(baseUrl, outer)) ==
            Success(XRiftContextValue(assetBasePath := baseUrl))
  {
  }

  /** The nearest provider wins: a nested development provider shadows an
      outer one. */
  lemma NearestDevProviderWins(outerBase: string, innerBase: string, outer: Env)
    ensures UseXRift(XRiftDevProvider(innerBase, XRiftDevProvider(outerBase, outer))) ==
            Success(XRiftContextValue(assetBasePath := innerBase))
  {
  }

  /** The development provider does not bind the context `useWorldBaseUrl`
      reads, so that accessor and the world-asset hooks built on it still
      throw beneath it unless some other provider of that context encloses
      it. In particular an application that wraps the world only in
      `XRiftDevProvider` cannot use them. */
  lemma DevProviderLeavesWorldAssetUnbound(baseUrl: string, outer: Env, relativePath: string)
    ensures UseWorldBaseUrl(XRiftDevProvider(baseUrl, outer)) == UseWorldBaseUrl(outer)
    ensures !Provided(outer, WorldAssetContext) ==>
              UseWorldBaseUrl(XRiftDevProvider(baseUrl, outer)) ==
              Failure(MissingProvider(UseWorldBaseUrlMessage))
    ensures UseWorldGLTF(XRiftDevProvider(baseUrl, EmptyTree), relativePath) ==
            Failure(MissingProvider(UseWorldBaseUrlMessage))
  {
  }
}
