/** src/utils/useWorldAsset.ts: turning a world-relative asset path into the
    absolute path handed to the model and texture loaders, and the accessor
    for the base URL those paths are resolved against. The loaders
    themselves (`useGLTF`, `useTexture` and their `preload`) are opaque sinks:
    each hook is modelled by the path string it passes to its loader. */
module WorldAsset {
  import opened Wrappers
  import opened ReactContext

  const UseWorldBaseUrlMessage: string :=
    "useWorldBaseUrl must be used within WorldBaseUrlProvider"

  /** The regular expression `^\.\/` matches `relativePath`: it begins with
      the two characters `./`. */
  predicate HasDotSlashPrefix(relativePath: string) {
    "./" <= relativePath
  }

  /** `relativePath.replace(/^\.\//, '')`: the anchored pattern can match only
      at position 0, and without the `g` flag it is replaced at most once. */
  function StripDotSlash(relativePath: string): (cleanPath: string)
    ensures HasDotSlashPrefix(relativePath) ==> "./" + cleanPath == relativePath
    ensures !HasDotSlashPrefix(relativePath) ==> cleanPath == relativePath
  {
    if HasDotSlashPrefix(relativePath) then relativePath[2..] else relativePath
  }

  /** `resolveAssetPath(baseUrl, relativePath)`: the base URL followed directly
      by the cleaned path; no separator is inserted and neither part is
      normalised. */
  function ResolveAssetPath(baseUrl: string, relativePath: string): (absolutePath: string)
    ensures baseUrl <= absolutePath
    ensures HasDotSlashPrefix(relativePath) ==> "./" + absolutePath[|baseUrl|..] == relativePath
    ensures !HasDotSlashPrefix(relativePath) ==> absolutePath[|baseUrl|..] == relativePath
  {
    baseUrl + StripDotSlash(relativePath)
  }

  /** `relativePaths.map((path) => resolveAssetPath(baseUrl, path))`. */
  function ResolveAll(baseUrl: string, relativePaths: seq<string>): (absolutePaths: seq<string>)
    ensures |absolutePaths| == |relativePaths|
    ensures forall i :: 0 <= i < |relativePaths| ==>
              absolutePaths[i] == ResolveAssetPath(baseUrl, relativePaths[i])
  {
    if relativePaths == [] then []
    else [ResolveAssetPath(baseUrl, relativePaths[0])] + ResolveAll(baseUrl, relativePaths[1..])
  }

  /** The `string | string[]` argument of the texture hook and its preload. */
  datatype TexturePath = Single(path: string) | Many(paths: seq<string>)

  /** The `Array.isArray(relativePath) ? … : …` dispatch shared by
      `useWorldTexture` and `preloadWorldTexture`: an array is resolved element
      by element, in order, and a single string stays a single string. */
  function ResolveTexturePath(baseUrl: string, relativePath: TexturePath): (absolutePath: TexturePath)
    ensures absolutePath.Single? <==> relativePath.Single?
    ensures relativePath.Single? ==> absolutePath.path == ResolveAssetPath(baseUrl, relativePath.path)
    ensures relativePath.Many? ==> |absolutePath.paths| == |relativePath.paths|
    ensures relativePath.Many? ==> forall i :: 0 <= i < |relativePath.paths| ==>
              absolutePath.paths[i] == ResolveAssetPath(baseUrl, relativePath.paths[i])
  {
    match relativePath
    case Many(paths) => Many(ResolveAll(baseUrl, paths))
    case Single(path) => Single(ResolveAssetPath(baseUrl, path))
  }

  /** `useWorldBaseUrl()`: reads the module-private context and throws when no
      provider of that context encloses the caller, or when the nearest one
      provides `null`; otherwise it returns the provided value itself. */
  function UseWorldBaseUrl(env: Env): (r: Result<WorldBaseUrlContextValue, Error>)
    ensures r.Failure? <==> !Provided(env, WorldAssetContext)
    ensures r.Failure? ==> r.error == MissingProvider(UseWorldBaseUrlMessage)
    ensures r.Success? ==> env[WorldAssetContext] == Some(r.value)
  {
    var context := UseContext(env, WorldAssetContext);
    if context.None? then Failure(MissingProvider(UseWorldBaseUrlMessage))
    else Success(context.value)
  }

  /** The path `useWorldGLTF(relativePath)` passes to `useGLTF`: the relative
      path resolved against the provided base URL; or the error the base URL
      accessor throws first. */
  function UseWorldGLTF(env: Env, relativePath: string): (r: Result<string, Error>)
    ensures r.Success? <==> Provided(env, WorldAssetContext)
    ensures r.Failure? ==> r.error == MissingProvider(UseWorldBaseUrlMessage)
    ensures r.Success? ==>
              r.value == ResolveAssetPath(env[WorldAssetContext].value.baseUrl, relativePath)
  {
    var ctx :- UseWorldBaseUrl(env);
    Success(ResolveAssetPath(ctx.baseUrl, relativePath))
  }

  /** The path or paths `useWorldTexture(relativePath)` passes to
      `useTexture`: each relative path resolved against the provided base URL,
      in the shape it was given; or the error the base URL accessor throws
      first. */
  function UseWorldTexture(env: Env, relativePath: TexturePath): (r: Result<TexturePath, Error>)
    ensures r.Success? <==> Provided(env, WorldAssetContext)
    ensures r.Failure? ==> r.error == MissingProvider(UseWorldBaseUrlMessage)
    ensures r.Success? ==>
              r.value == ResolveTexturePath(env[WorldAssetContext].value.baseUrl, relativePath)
  {
    var ctx :- UseWorldBaseUrl(env);
    Success(ResolveTexturePath(ctx.baseUrl, relativePath))
  }

  /** The path `preloadWorldGLTF(baseUrl, relativePath)` passes to
      `useGLTF.preload`. It takes the base URL as an argument and never
      throws: the result is the base URL followed by the relative path with
      one leading `./` removed when present. */
  function PreloadWorldGLTF(baseUrl: string, relativePath: string): (absolutePath: string)
    ensures baseUrl <= absolutePath
    ensures HasDotSlashPrefix(relativePath) ==> "./" + absolutePath[|baseUrl|..] == relativePath
    ensures !HasDotSlashPrefix(relativePath) ==> absolutePath[|baseUrl|..] == relativePath
  {
    ResolveAssetPath(baseUrl, relativePath)
  }

  /** The path or paths `preloadWorldTexture(baseUrl, relativePath)` passes
      to `useTexture.preload`: a single path resolved, or an array resolved
      element by element in order. */
  function PreloadWorldTexture(baseUrl: string, relativePath: TexturePath): (absolutePath: TexturePath)
    ensures absolutePath.Single? <==> relativePath.Single?
    ensures relativePath.Single? ==> absolutePath.path == ResolveAssetPath(baseUrl, relativePath.path)
    ensures relativePath.Many? ==> |absolutePath.paths| == |relativePath.paths|
    ensures relativePath.Many? ==> forall i :: 0 <= i < |relativePath.paths| ==>
              absolutePath.paths[i] == ResolveAssetPath(baseUrl, relativePath.paths[i])
  {
    ResolveTexturePath(baseUrl, relativePath)
  }

  // ---------------------------------------------------------------------
  // Properties of the resolution policy

  /** A path without the `./` prefix is appended to the base URL verbatim. */
  lemma ResolveUnprefixed(baseUrl: string, relativePath: string)
    requires !HasDotSlashPrefix(relativePath)
    ensures ResolveAssetPath(baseUrl, relativePath) == baseUrl + relativePath
  {
  }

  /** A `./`-prefixed path loses exactly those two characters. */
  lemma ResolvePrefixed(baseUrl: string, relativePath: string)
    requires HasDotSlashPrefix(relativePath)
    ensures ResolveAssetPath(baseUrl, relativePath) == baseUrl + relativePath[2..]
  {
  }

  /** The length of the resolved path is the sum of the two lengths, less two
      exactly when the `./` prefix was removed. */
  lemma ResolveLength(baseUrl: string, relativePath: string)
    ensures |ResolveAssetPath(baseUrl, relativePath)| ==
            |baseUrl| + |relativePath| - (if HasDotSlashPrefix(relativePath) then 2 else 0)
    ensures |ResolveAssetPath(baseUrl, relativePath)| < |baseUrl| + |relativePath|
            <==> HasDotSlashPrefix(relativePath)
  {
  }

  /** Only one `./` is removed: a doubled prefix leaves the second one in
      place. */
  lemma StripsOnlyOnce(baseUrl: string, rest: string)
    ensures ResolveAssetPath(baseUrl, "././" + rest) == baseUrl + "./" + rest
  {
  }

  /** A path prefixed with one `./` resolves exactly as the path without it. */
  lemma DotSlashIsOptional(baseUrl: string, relativePath: string)
    requires !HasDotSlashPrefix(relativePath)
    ensures ResolveAssetPath(baseUrl, "./" + relativePath) == ResolveAssetPath(baseUrl, relativePath)
  {
  }

  /** No separator is inserted: a base URL without a trailing `/` runs into
      the file name (`"/public"` is the base URL the development provider's
      documentation suggests). */
  lemma NoSeparatorInserted()
    ensures ResolveAssetPath("/public", "./duck.glb") == "/publicduck.glb"
    ensures ResolveAssetPath("/public/", "./duck.glb") == "/public/duck.glb"
  {
  }

  /** Resolving an already resolved path is not the identity. When the first
      result has no `./` prefix the base URL is prepended a second time; when
      it has one, that prefix is stripped and the base prepended again. For a
      path without the prefix, the result is unchanged only for the empty base
      URL and for the base URL `./`. */
  lemma ResolveTwice(baseUrl: string, relativePath: string)
    requires !HasDotSlashPrefix(relativePath)
    ensures !HasDotSlashPrefix(ResolveAssetPath(baseUrl, relativePath)) ==>
              ResolveAssetPath(baseUrl, ResolveAssetPath(baseUrl, relativePath)) ==
              baseUrl + ResolveAssetPath(baseUrl, relativePath)
    ensures (ResolveAssetPath(baseUrl, ResolveAssetPath(baseUrl, relativePath)) ==
             ResolveAssetPath(baseUrl, relativePath)) <==> baseUrl == [] || baseUrl == "./"
  {
    var once := ResolveAssetPath(baseUrl, relativePath);
    var twice := ResolveAssetPath(baseUrl, once);
    ResolveUnprefixed(baseUrl, relativePath);
    if HasDotSlashPrefix(once) {
      ResolvePrefixed(baseUrl, once);
      assert baseUrl != [];
      if |baseUrl| == 2 {
        assert baseUrl == once[..2] == "./";
        assert twice == once;
      } else {
        assert |twice| != |once|;
      }
    } else {
      ResolveUnprefixed(baseUrl, once);
      assert baseUrl != "./";
      if baseUrl != [] {
        assert |twice| != |once|;
      }
    }
  }

  /** Resolving a list of two paths gives the two resolved paths in the same
      order. */
  lemma ResolveAllPair(baseUrl: string, p1: string, p2: string)
    ensures ResolveAll(baseUrl, [p1, p2]) ==
            [ResolveAssetPath(baseUrl, p1), ResolveAssetPath(baseUrl, p2)]
  {
  }

  /** Resolving a concatenation of lists is the concatenation of the resolved
      lists: `map` neither reorders nor mixes elements. */
  lemma ResolveAllAppend(baseUrl: string, xs: seq<string>, ys: seq<string>)
    ensures ResolveAll(baseUrl, xs + ys) == ResolveAll(baseUrl, xs) + ResolveAll(baseUrl, ys)
  {
  }

  // ---------------------------------------------------------------------
  // Hooks against their preload counterparts

  /** The GLTF hook fails exactly when the base URL accessor does, and
      otherwise loads the very path `preloadWorldGLTF` warms for the provided
      base URL. */
  lemma GLTFHookMatchesPreload(env: Env, relativePath: string)
    ensures UseWorldGLTF(env, relativePath).Failure? <==> !Provided(env, WorldAssetContext)
    ensures Provided(env, WorldAssetContext) ==>
              UseWorldGLTF(env, relativePath) ==
              Success(PreloadWorldGLTF(env[WorldAssetContext].value.baseUrl, relativePath))
  {
  }

  /** The same correspondence for textures, for single paths and arrays. */
  lemma TextureHookMatchesPreload(env: Env, relativePath: TexturePath)
    ensures UseWorldTexture(env, relativePath).Failure? <==> !Provided(env, WorldAssetContext)
    ensures Provided(env, WorldAssetContext) ==>
              UseWorldTexture(env, relativePath) ==
              Success(PreloadWorldTexture(env[WorldAssetContext].value.baseUrl, relativePath))
  {
  }

  /** A provider of the private context whose value is `null` does not
      satisfy `useWorldBaseUrl`: the guard tests the value, not the presence
      of a provider. */
  lemma UseWorldBaseUrlRejectsNullProvider(env: Env)
    ensures UseWorldBaseUrl(Provide(env, WorldAssetContext, None)) ==
            Failure(MissingProvider(UseWorldBaseUrlMessage))
  {
  }
}
