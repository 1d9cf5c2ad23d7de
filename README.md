# Star scene motion, asset tables and config merge, in Dafny

This project models the deterministic core of a marketing site whose landing
page shows a physics-driven 3D scene of floating stars and statues.

- **Motion** (`motion.dfy`): the frame callback of each floating object
  (`Connector` in `components/star-scene.tsx`). It reads the body's position
  and distance from the origin and picks an attraction multiplier: 0.05
  inside radius 8, rising linearly beyond it. An outlier farther than 12 is
  put back onto the sphere of radius 8 and stopped. The callback then applies
  the impulse `-position · multiplier` and slows a velocity faster than 2 down
  to exactly 2. The rigid body is a class `Body` whose methods update its
  position and velocity in place. The module also holds the random initial
  spread of a body and the pointer-to-world mapping of the `Pointer` proxy.
- **Catalog** (`catalog.dfy`): the `MATERIALS` palettes, the `MODELS` asset
  paths, the preloaded assets, the loader's fall-back to the `STAR` asset and
  the per-model scale factor.
- **SceneGraph** (`scene.dfy`): the list of thirteen floating objects that
  `Scene` pushes into a ref on its first render, and only then.
- **NextConfig** (`next_config.dfy`): `mergeConfig` of `next.config.mjs`,
  which merges an optional user configuration one level deep, in place, into
  the base configuration. JavaScript values are a datatype; the base
  configuration is a class `Config` whose `Merge` method runs the key loop.

All numbers are exact reals. Every product of two variables in `Motion` is
written with the function `Mul`, and every quotient by a variable with `Div`;
the lemmas next to them state the algebra the proofs use. The square roots
the source takes (`Vector3.length()`, `Math.sqrt`) are arguments `r` with
`IsRoot(r, x)`: `r >= 0` and `r² = x`. `RootUnique` shows that this fixes `r`.
Randomness (`Math.random()`) is an argument `u` in `[0, 1)`. Whether an asset
loads is an argument `loads`. The velocity the physics engine reports after
the impulse is an argument `reported`.

## Notes on the code's behaviour

- The hard correction puts an outlier onto the sphere of radius 8 (the soft
  radius), not onto the sphere of the hard radius 12.
- The speed bound and the position bound hold at the end of each callback
  only. The engine moves bodies between callbacks, and positions between 8
  and 12 are never corrected.
- `DAVID` (like `ATREYU` and `STUDIO`) maps straight to `/models/star.glb`.
  No `/models/david.glb` is ever requested.
- The random spawn cube is `(-2.5, 2.5]` on each axis (`randFloatSpread(5)`).

## Model

| member | source | states |
|---|---|---|
| `Motion.RootUnique` | components/star-scene.tsx:441 | the distance `position.length()` is the unique non-negative root of the squared length, so passing it in loses nothing |
| `Motion.RootCompare` | components/star-scene.tsx:449-455 | comparing the distance with a non-negative threshold is comparing the squared length with the threshold's square |
| `Motion.AttractionMultiplier` | components/star-scene.tsx:447-452 | the multiplier is never below the base 0.05, and it is exactly 0.05 up to distance 8 |
| `Motion.MultiplierBase` | components/star-scene.tsx:447-452 | the multiplier is always at least 0.05, and exactly 0.05 iff the distance is at most 8 |
| `Motion.MultiplierMonotone` | components/star-scene.tsx:447-452 | the multiplier never decreases as the distance grows |
| `Motion.MultiplierLipschitz` | components/star-scene.tsx:449-452 | the multiplier grows by at most 0.3/8 per unit of distance, so it is continuous at 8 |
| `Motion.ProjectToSphere` | components/star-scene.tsx:457 | `normalize().multiplyScalar(8)` is the single scaling of the position by 8 / d |
| `Motion.CorrectedPosition` | components/star-scene.tsx:455-463 | within distance 12 the position is kept; beyond it the corrected position has squared length 64 |
| `Motion.Impulse` | components/star-scene.tsx:471-477 | inside distance 8 the impulse is the negated position times the base multiplier 0.05 |
| `Motion.ProjectionOnSphere` | components/star-scene.tsx:455-457 | beyond 12, `normalize().multiplyScalar(8)` scales the position by a factor in (0, 1), lands at squared length 64, and keeps its direction (dot product 8·d) |
| `Motion.CorrectionFiresBeyondHardDistance` | components/star-scene.tsx:455-467 | the corrected position equals the read position iff the distance is at most 12 |
| `Motion.CorrectedWithinHardDistance` | components/star-scene.tsx:455-463 | after the optional correction the position is within distance 12 |
| `Motion.ImpulseAtOrigin` | components/star-scene.tsx:471-477 | a body at the origin gets the zero impulse; the correction cannot fire there |
| `Motion.ImpulseTowardsCentre` | components/star-scene.tsx:471-477 | for any other body the impulse has a negative dot product with its position: it points towards the centre |
| `Motion.ClampedVelocity` | components/star-scene.tsx:484-494 | the clamp never makes a body faster |
| `Motion.ClampSpeed` | components/star-scene.tsx:480-494 | after the clamp the speed is at most 2; the velocity is unchanged iff its squared speed is at most 4; otherwise it is scaled by a factor in (0, 1) to squared speed exactly 4 |
| `Motion.ClampIdempotent` | components/star-scene.tsx:484-494 | clamping an already clamped velocity changes nothing |
| `Motion.Body.constructor` | components/star-scene.tsx:503 | a body starts at its `position` prop, at rest |
| `Motion.Body.Recenter` | components/star-scene.tsx:431-477 | the position becomes the corrected one, the velocity is zeroed exactly when the correction fires, the returned impulse is the negated corrected position times the multiplier, the new position is within 12, and the impulse points towards the centre |
| `Motion.Body.LimitSpeed` | components/star-scene.tsx:480-494 | the velocity becomes the clamped velocity, the position is untouched, and the speed is at most 2 |
| `Motion.Body.OnFrame` | components/star-scene.tsx:429-496 | one callback: position and impulse as in `Recenter`, velocity the clamp of what the engine reports; at the end the position is within 12 and the speed within 2 |
| `Motion.RandFloatSpread` | components/star-scene.tsx:419-425 | `randFloatSpread(range)` for a non-negative range lies in [-range/2, range/2], and strictly above -range/2 for a positive range |
| `Motion.SpawnPosition` | components/star-scene.tsx:420-427 | a given `position` prop is used as is; otherwise each coordinate lies in (-2.5, 2.5] |
| `Motion.SpawnInsideSoftRadius` | components/star-scene.tsx:420-427 | a random spawn point is inside distance 8, so it starts with the base multiplier 0.05 |
| `Motion.PointerTarget` | components/star-scene.tsx:533-537 | the target lies on z = 0, and a pointer coordinate of 0 maps to the matching world coordinate 0 |
| `Motion.PointerMapping` | components/star-scene.tsx:530-538 | the pointer target lies on z = 0, the pointer's centre maps to the origin for any viewport, and a pointer in [-1, 1]² stays within the viewport's half-extents |
| `Catalog.Materials` | components/star-scene.tsx:215-244 | every material has a palette of four distinct colours |
| `Catalog.PaletteColorsAreHex` | components/star-scene.tsx:215-244 | every palette colour is written `#rrggbb` |
| `Catalog.MaterialKinds` | components/star-scene.tsx:215-244 | two materials share a kind iff they are the same or are GLASS and GLASS_BLUE (both transmission) |
| `Catalog.ModelPath` | components/star-scene.tsx:247-281 | every model path is one of the three preloaded assets, and it is the star asset iff the type is neither GLASS_STAR nor CRUCIFIX |
| `Catalog.SharedPaths` | components/star-scene.tsx:247-254 | two model types share an asset iff they are equal or both fall back to the star asset |
| `Catalog.ResolveModel` | components/star-scene.tsx:289-308 | the error flag is set iff the type's own asset fails; a model is shown iff the own or the STAR asset loads; what is shown loads and is one of those two; a loading own asset is always preferred |
| `Catalog.FallbackIsStar` | components/star-scene.tsx:299-302 | for ATREYU, DAVID and STUDIO the outcome is that of STAR: the star asset or nothing |
| `Catalog.ModelScale` | components/star-scene.tsx:311-320 | a positive scale prop gives a positive size of at most 0.8 times the prop; a zero prop gives zero |
| `Catalog.ModelScaleMonotone` | components/star-scene.tsx:311-320 | the size is linear in the prop and so never decreases as the prop grows |
| `SceneGraph.SceneEntries` | components/star-scene.tsx:566-693 | the first render pushes thirteen entries |
| `SceneGraph.SceneEntriesWellFormed` | components/star-scene.tsx:565-693 | the list has thirteen entries with pairwise distinct ids (the React keys of line 774); each colour is in its own material's palette, each scale is positive, and each model has a preloaded asset |
| `SceneGraph.Scene.constructor` | components/star-scene.tsx:562 | the ref starts as the empty list |
| `SceneGraph.Scene.Render` | components/star-scene.tsx:565-694 | an empty list becomes the thirteen entries; a non-empty list is left unchanged; a valid ref ends holding the thirteen entries |
| `SceneGraph.MountAndRerender` | components/star-scene.tsx:562-694 | a first render and a re-render see the same thirteen well-formed entries with distinct ids |
| `NextConfig.MergeableValues` | next.config.mjs:61-62 | the merge branch is taken exactly for plain objects and `null` (`typeof null` is "object") |
| `NextConfig.IndexedValueKeys` | next.config.mjs:59 | `for...in` over an array or string user configuration visits exactly the numerals of its indices |
| `NextConfig.MergeEntry` | next.config.mjs:60-70 | a base value outside the merge branch is replaced by the user value; inside it the result is an object with the fields of both |
| `NextConfig.Merged` | next.config.mjs:54-72 | a falsy user configuration leaves the base as it is; no base key is ever lost |
| `NextConfig.Config.Merge` | next.config.mjs:54-72 | the loop over the user keys leaves exactly the configuration `Merged` describes, whatever order it visits the keys in |
| `NextConfig.FalsyUserKeepsBase` | next.config.mjs:55-57 | a falsy user configuration leaves the base unchanged |
| `NextConfig.MergedKeys` | next.config.mjs:59-71 | the merged keys are the base keys together with the user keys; base keys the user does not name keep their values |
| `NextConfig.ObjectEntriesMerge` | next.config.mjs:60-67 | over a plain-object base value the result is an object with the union of the fields, the user's fields winning and the base's other fields kept |
| `NextConfig.NullEntryBecomesObject` | next.config.mjs:60-67 | over a `null` base value the result is a new object of the user value's own properties |
| `NextConfig.OtherEntriesReplaced` | next.config.mjs:68-70 | over an absent, array, function or primitive base value the user value replaces it |
| `NextConfig.MergeIdempotent` | next.config.mjs:54-72 | merging the same user configuration twice equals merging it once when the user sets no key to `null` |
| `NextConfig.NullBreaksIdempotence` | next.config.mjs:60-67 | with a `null` user value a second merge turns it into `{}`, so the exclusion above is needed |
| `NextConfig.ShallowOnly` | next.config.mjs:64-67 | a nested object inside a merged entry is replaced, not merged: the base's nested fields are lost |
| `NextConfig.BaseConfig` | next.config.mjs:9-50 | the base configuration has exactly the eight keys eslint, typescript, images, transpilePackages, webpack, experimental, headers and onDemandEntries |
| `NextConfig.BaseConfigBranches` | next.config.mjs:9-50 | of the base entries, eslint, typescript, images, experimental and onDemandEntries take the merge branch; transpilePackages, webpack and headers are replaced |
| `NextConfig.BaseConfigExample` | next.config.mjs:9-72 | a user image option is added beside `unoptimized: true`, and a user package list replaces the base list instead of extending it |

## Left out

- The ray-marching background shader, its material and the loading screen (components/star-scene.tsx:22-213): GPU floating-point code and presentation.
- The physics engine: how `applyImpulse` turns into velocity, damping, friction, the cross-shaped colliders and the pointer's ball collider (components/star-scene.tsx:499-509, 543-545). `OnFrame` takes the velocity the engine reports as an argument, and no bound is claimed across engine steps.
- The `api.current` and `ref.current` null checks (components/star-scene.tsx:430, 531): the model assumes the body is mounted.
- Square roots: `length()` and `Math.sqrt` are arguments constrained by `IsRoot`. The zero-length guard inside three.js `normalize()` is not modelled, as the correction only runs beyond distance 12.
- IEEE-754 rounding, `NaN` and the infinities: all numbers are exact reals. `Truthy` treats a number as falsy only when it is zero, so `NaN` is not covered.
- Motion.RandFloatSpread: three.js is not part of this model; `randFloatSpread(range)` is taken to be `range * (0.5 - u)` with `u` the value of `Math.random()`.
- Asset loading: `useGLTF` is asynchronous and called inside an effect. `ResolveModel` models which asset is chosen, not the loading, the `scene.clone()` or the console warnings.
- JSX, lights, material props and the `Model` mesh (components/star-scene.tsx:323-410), the accent point light, the canvas setup, WebGL detection and the error boundaries, components/header.tsx, components/popup-menu.tsx, pages/, app/ and utils/cn.ts: presentation code or thin wrappers over libraries.
- The dynamic `import()` of the user configuration (next.config.mjs:1-6): `Merge` accepts any value as the user configuration.
- The bodies of the `webpack` and `headers` functions in the base configuration (next.config.mjs:20-29, 33-45): a function value is known by its name only.
- Strings are sequences of Unicode scalar values, while JavaScript indexes a string by UTF-16 code units: for a user configuration that is a string with characters outside the Basic Multilingual Plane, `for...in` and spread see more index keys in the source than `OwnEntries` gives.
- `for...in` order, inherited enumerable properties and symbol keys: the loop may visit the user keys in any order, and the result does not depend on it.
