# xrift-test-world asset-path resolution, in Dafny

This project models the asset-path layer of an XRift world package. A world is
a React/three.js scene. Its assets (GLTF models, textures) are loaded from
paths built from a base URL that a React context provides. The model covers:

- `resolveAssetPath`, which strips one leading `./` from a relative path and
  appends the result to the base URL with no separator;
- the array mapping and the single-path/array dispatch used by
  `useWorldTexture` and `preloadWorldTexture`;
- the accessors `useWorldBaseUrl` and `useXRift`. Each throws when its context
  has no provider. `useXRift` renames `baseUrl` to `assetBasePath`;
- the paths that `useWorldGLTF`, `useWorldTexture`, `preloadWorldGLTF` and
  `preloadWorldTexture` hand to their loaders;
- `XRiftDevProvider`, and the `${assetBasePath}/name` paths built by the
  `Duck` and `Skybox` components.

React's context lookup is made explicit. The contexts bound at a point of the
tree are a map from context object to the nearest provider's value
(`ReactContext.Env`). That value may be `null` (`None`), because both contexts
are typed `WorldBaseUrlContextValue | null`. The two `createContext` calls are
two distinct keys: the module-private one in `useWorldAsset.ts` and the
exported one in `useXRift.ts`. A provider is a map update, so the nearest
provider wins. A hook that throws returns `Failure(MissingProvider(message))`,
with the source's own message. Its `if (!context)` guard fires both when no
provider encloses the caller and when the nearest one provides `null`.

Modules: `Wrappers` (Option/Result), `ReactContext` (contexts, environment,
provider), `WorldAsset` (src/utils/useWorldAsset.ts), `XRift`
(src/utils/useXRift.ts), `DevProvider` (src/utils/XRiftDevProvider.tsx),
`Components` (the Duck and Skybox path templates).

The model follows the code where the code departs from its own comments:

- src/utils/useWorldAsset.ts:7-11 says the front end creates and injects this
  context. But the context is created at line 15 and not exported, so nothing
  outside the module can provide it. src/utils/useXRift.ts:11 and
  src/utils/XRiftDevProvider.tsx:7 say the development provider stands in for
  the front end's context. It binds only the context exported from
  useXRift.ts. So `useWorldBaseUrl`, `useWorldGLTF` and `useWorldTexture` throw
  beneath it (`DevProvider.DevProviderLeavesWorldAssetUnbound`).
- The two accessors document different base-URL forms. The example at
  src/utils/useWorldAsset.ts:26 ends in `/`; the one at
  src/utils/useXRift.ts:65 does not. `resolveAssetPath` adds no separator, and
  the Duck and Skybox templates add one. For the same base the two conventions
  never give the same path (`Components.ConventionsDisagree`).
- `resolveAssetPath` is not idempotent on resolved paths. Applying it again to
  its own result, for a path without the `./` prefix, changes the result
  unless the base URL is empty or exactly `./` (`WorldAsset.ResolveTwice`).

## Model

| member | source | states |
|---|---|---|
| `ReactContext.LookupLaws` | src/utils/useWorldAsset.ts:15 | At the root of a tree with no provider every context reads as the `createContext` default `null`; of two nested providers of one context the inner one is read |
| `ReactContext.Provide` | src/utils/XRiftDevProvider.tsx:42-44 | Beneath a provider its own context reads as exactly the provided value (value or `null`), whatever an outer provider bound, and every other context reads as it did outside |
| `WorldAsset.StripDotSlash` | src/utils/useWorldAsset.ts:50 | The anchored, non-global `^\.\/` replace: re-prepending `./` to the cleaned path gives back a prefixed input; an unprefixed input is unchanged |
| `WorldAsset.ResolveAssetPath` | src/utils/useWorldAsset.ts:48-52 | The base URL is a prefix of the result, and the rest of the result is the relative path with exactly one leading `./` removed when present |
| `WorldAsset.ResolveAll` | src/utils/useWorldAsset.ts:146 | Mapping over an array keeps its length and order; element i is the resolution of input element i |
| `WorldAsset.ResolveTexturePath` | src/utils/useWorldAsset.ts:145-147 | A single path stays single and an array stays an array, resolved element by element |
| `WorldAsset.UseWorldBaseUrl` | src/utils/useWorldAsset.ts:29-37 | Throws the "must be used within WorldBaseUrlProvider" error exactly when the private context is unbound or bound to `null`; otherwise returns the provided value unchanged |
| `WorldAsset.UseWorldGLTF` | src/utils/useWorldAsset.ts:93-98 | Throws the accessor's error exactly when the private context provides no value; otherwise the path handed to the GLTF loader is the relative path resolved against the provided base URL |
| `WorldAsset.UseWorldTexture` | src/utils/useWorldAsset.ts:139-150 | Throws the accessor's error exactly when the private context provides no value; otherwise the path or paths handed to the texture loader are the given ones resolved against the provided base URL, in the same shape and order |
| `WorldAsset.PreloadWorldGLTF` | src/utils/useWorldAsset.ts:166-169 | Never throws; the preloaded path is the given base URL followed by the relative path with one leading `./` removed when present |
| `WorldAsset.PreloadWorldTexture` | src/utils/useWorldAsset.ts:185-194 | Never throws; a single path is resolved against the given base URL, and an array is resolved element by element with its length and order kept |
| `WorldAsset.ResolveUnprefixed` | src/utils/useWorldAsset.ts:48-52 | A path not starting with `./` is appended to the base URL verbatim |
| `WorldAsset.ResolvePrefixed` | src/utils/useWorldAsset.ts:50-51 | A `./`-prefixed path loses exactly its first two characters |
| `WorldAsset.ResolveLength` | src/utils/useWorldAsset.ts:50-51 | The result's length is the sum of both lengths, less two if and only if the prefix was stripped |
| `WorldAsset.StripsOnlyOnce` | src/utils/useWorldAsset.ts:50 | Only one `./` is removed: `././x` resolves to the base followed by `./x` |
| `WorldAsset.DotSlashIsOptional` | src/utils/useWorldAsset.ts:50-51 | Adding one `./` to an unprefixed path does not change where it resolves |
| `WorldAsset.NoSeparatorInserted` | src/utils/useWorldAsset.ts:51 | `"/public"` and `"./duck.glb"` give `"/publicduck.glb"`; with `"/public/"` they give `"/public/duck.glb"` |
| `WorldAsset.ResolveTwice` | src/utils/useWorldAsset.ts:48-52 | For a path without `./`: when the first result has no `./` prefix, resolving it again prepends the base a second time; the second resolution leaves the result unchanged if and only if the base URL is empty or `./` |
| `WorldAsset.ResolveAllPair` | src/utils/useWorldAsset.ts:146 | Resolving `[p1, p2]` gives the two resolved paths in that order |
| `WorldAsset.ResolveAllAppend` | src/utils/useWorldAsset.ts:146 | Resolving a concatenation of arrays is the concatenation of the resolved arrays |
| `WorldAsset.UseWorldBaseUrlRejectsNullProvider` | src/utils/useWorldAsset.ts:32-34 | A provider of the private context whose value is `null` still makes `useWorldBaseUrl` throw |
| `WorldAsset.GLTFHookMatchesPreload` | src/utils/useWorldAsset.ts:94-95 | The GLTF hook fails exactly when its context provides no value, and otherwise loads the same path `preloadWorldGLTF` warms for the provided base URL (lines 166-167) |
| `WorldAsset.TextureHookMatchesPreload` | src/utils/useWorldAsset.ts:142-147 | The texture hook fails exactly when its context provides no value, and otherwise loads the same path or paths `preloadWorldTexture` warms (lines 189-191) |
| `XRift.UseXRift` | src/utils/useXRift.ts:50-71 | Throws the "useXRift must be used within WorldBaseUrlProvider" error exactly when the exported context is unbound or bound to `null`; otherwise its one field `assetBasePath` equals the provided `baseUrl` |
| `XRift.UseXRiftIgnoresWorldAssetContext` | src/utils/useXRift.ts:13 | The exported context is a different object from the private one in useWorldAsset.ts: binding the private one does not change what `useXRift` returns |
| `XRift.UseXRiftRejectsNullProvider` | src/utils/useXRift.ts:53-55 | A provider of the exported context whose value is `null` still makes `useXRift` throw |
| `DevProvider.XRiftDevProvider` | src/utils/XRiftDevProvider.tsx:37-46 | Its children see the exported context bound to `{ baseUrl }`, and the private world-asset context exactly as outside it |
| `DevProvider.DevProviderSuppliesXRift` | src/utils/XRiftDevProvider.tsx:42 | Beneath the provider with base URL b, `useXRift` succeeds and `assetBasePath` is b |
| `DevProvider.NearestDevProviderWins` | src/utils/XRiftDevProvider.tsx:42 | A nested provider shadows an enclosing one |
| `DevProvider.DevProviderLeavesWorldAssetUnbound` | src/utils/XRiftDevProvider.tsx:1 | `useWorldBaseUrl` answers beneath the provider as it does outside it, so it throws there when nothing else provides its context, and `useWorldGLTF` throws beneath a provider at the root |
| `Components.JoinWithSlash` | src/components/Duck/index.tsx:16 | The template literal keeps the base path as a prefix and puts `/` and the name after it |
| `Components.DuckModelPath` | src/components/Duck/index.tsx:15-16 | Fails exactly when `useXRift` fails (exported context unbound or `null`); otherwise the path is the base path followed by `/duck.glb` |
| `Components.SkyboxTexturePath` | src/components/Skybox/index.tsx:15-16 | Fails exactly when `useXRift` fails (exported context unbound or `null`); otherwise the path is the base path followed by `/tokyo-station.jpg` |
| `Components.ComponentsUnderDevProvider` | src/utils/XRiftDevProvider.tsx:42 | Beneath the development provider with base b, both components load from beneath b |
| `Components.ConventionsDisagree` | src/components/Skybox/index.tsx:16 | For any base and name, `resolveAssetPath(base, "./" + name)` never equals the template literal's `base + "/" + name` |
| `Components.TrailingSlashReconciles` | src/components/Duck/index.tsx:16 | The two conventions agree when the base given to `resolveAssetPath` already ends with `/` |

## Left out

- Loading: `useGLTF`, `useTexture` and their `preload` fetch, cache and suspend. They are opaque sinks here; only the path handed to them is modelled, and the loaded object (and the `as unknown as T` casts) is not.
- React's runtime: rendering, re-rendering and subtree unmounting are not modelled; context lookup is the explicit environment parameter.
- Host injection: the production host that supplies the context through Module Federation is outside the repository. It is modelled only as some environment that may or may not bind each key.
- Scene composition: src/World.tsx and the geometry, physics and materials of Duck, Skybox and Mirror are declarative three.js/Rapier scene graphs over floating-point values, with no path logic.
- Mirror: src/components/Mirror/index.tsx is a lifecycle around a foreign `Reflector` object.
- Build configuration: vite.config.ts.
- Types: src/types.ts and src/types/world.d.ts contribute only the `{ baseUrl: string }` shape, which is `ReactContext.WorldBaseUrlContextValue`.
- Strings are sequences of characters; JavaScript's UTF-16 code units are not distinguished from characters, which does not affect a two-character prefix test or concatenation.
