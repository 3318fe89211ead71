/** The asset paths of the two components that read `useXRift`:
    src/components/Duck/index.tsx and src/components/Skybox/index.tsx. Each
    builds its path with a template literal that puts a `/` between the base
    path and the file name, unlike `resolveAssetPath`. */
module Components {
  import opened Wrappers
  import opened ReactContext
  import opened WorldAsset
  import opened XRift
  import opened DevProvider

  const DuckFile: string := "duck.glb"
  const SkyboxFile: string := "tokyo-station.jpg"

  /** `` `${assetBasePath}/${name}` ``. */
  function JoinWithSlash(assetBasePath: string, name: string): (path: string)
    ensures assetBasePath <= path
    ensures path[|assetBasePath|..] == "/" + name
  {
    assetBasePath + "/" + name
  }

  /** The path `Duck` passes to `useGLTF`, or the error `useXRift` throws. */
  function DuckModelPath(env: Env): (r: Result<string, Error>)
    ensures r.Failure? <==> !Provided(env, XRiftContext)
    ensures r.Success? ==> r.value == env[XRiftContext].value.baseUrl + "/duck.glb"
  {
    var xrift :- UseXRift(env);
    Success(JoinWithSlash(xrift.assetBasePath, DuckFile))
  }

  /** The path `Skybox` passes to `useTexture`, or the error `useXRift`
      throws. */
  function SkyboxTexturePath(env: Env): (r: Result<string, Error>)
    ensures r.Failure? <==> !Provided(env, XRiftContext)
    ensures r.Success? ==> r.value == env[XRiftContext].value.baseUrl + "/tokyo-station.jpg"
  {
    var xrift :- UseXRift(env);
    Success(JoinWithSlash(xrift.assetBasePath, SkyboxFile))
  }

  /** Under the development provider both components load from beneath the
      configured base URL. */
  lemma ComponentsUnderDevProvider(baseUrl: string, outer: Env)
    ensures DuckModelPath(XRiftDevProvider(baseUrl, outer)) == Success(baseUrl + "/duck.glb")
    ensures SkyboxTexturePath(XRiftDevProvider(baseUrl, outer)) == Success(baseUrl + "/tokyo-station.jpg")
    ensures baseUrl <= DuckModelPath(XRiftDevProvider(baseUrl, outer)).value
    ensures baseUrl <= SkyboxTexturePath(XRiftDevProvider(baseUrl, outer)).value
  {
  }

  /** The two path conventions never agree for the same base: the template
      literal always yields one character more than `resolveAssetPath` on the
      `./`-prefixed name. */
  lemma ConventionsDisagree(base: string, name: string)
    ensures ResolveAssetPath(base, "./" + name) != JoinWithSlash(base, name)
  {
  }

  /** They agree once the base URL given to `resolveAssetPath` carries the
      trailing `/` that the template literal adds. */
  lemma TrailingSlashReconciles(base: string, name: string)
    ensures ResolveAssetPath(base + "/", "./" + name) == JoinWithSlash(base, name)
  {
  }
}
