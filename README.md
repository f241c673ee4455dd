# nanite-webgpu: query-string configuration and camera input arithmetic

This project models two pieces of logic of the nanite-webgpu renderer in Dafny
and proves properties of them.

**Query-string configuration** (`src/sys_web/searchParams.ts`). When the page
loads, `applySearchParams` walks the query pairs in order. It lower-cases each
key and trims each value, then looks the key up in the `PARAMS` table:

- `scene_file` replaces the scene to load, but only with a name the scene table accepts.
- `softwarerasterizer_threshold` switches the software rasterizer off on a parsed 0.
  For any other finite number its absolute value becomes the threshold.
- `impostors_threshold`, `impostors_texturesize` and `nanite_errorthreshold` store the
  absolute value of a finite number.
- `impostors_forceonlybillboards` switches billboards-only on, whatever its value.
- Any other key is appended, lower-cased, to the module-level `INVALID_SEARCH_PARAMS` list.

At the end the chosen scene is written to `CONFIG.sceneFile` and returned.
`parseNumber` accepts a value when it is a string that `parseFloat` turns
into a number that is neither NaN nor infinite.

In the model, `SearchParams.Step` and `SearchParams.ApplyAll` give the meaning
of one pair and of the whole query as functions on an `Applied` record
(settings, scene, invalid list). `SearchParams.ApplySearchParams` is the
imperative reader. It writes into the nested configuration objects (`Config`
and its sub-objects), into a separate global `Config` (CONFIG, possibly the
same object as the target) and into an `InvalidSearchParams` object, and it is
proved to leave them exactly as `ApplyAll` says. `JsText` models
`toLowerCase` and `trim`.

**Camera input arithmetic** (`src/camera.ts`). `clamp`, `mod`, the
opposing-key `sign` helper, and the translation and yaw/pitch computed in
`Camera.update`. Also the center, half-extent and eye arithmetic of
`Camera.focusBoundingBox`. Numbers are reals. `Math.PI` is the real
3.141592653589793. The tangent of half the field of view is a parameter.
The `Camera` class keeps its view matrix as the term of operations that
built it (`LookAt`, `Translated`, `Rotated`). The matrix library is not modelled.

One might expect `mod` to wrap yaw into [0, 2π). It does not: `mod` truncates the quotient towards zero, so the result keeps the
sign of `x`. A negative yaw stays in (-2π, 0]. The model follows the code:
`Camera.YawRange` states both halves and `Camera.NegativeYawStaysNegative`
exhibits a negative result. The yaw is a per-frame rotation increment, and a
turn by `y` equals a turn by `y + 2π`, so this is not reported as a defect.

## Model

| member | source | states |
|---|---|---|
| `JsText.LowerChar` | src/sys_web/searchParams.ts:23 | lower-casing maps A-Z to a-z (code point + 32), leaves every other character, and never yields an upper-case letter |
| `JsText.ToLower` | src/sys_web/searchParams.ts:23 | lower-casing keeps the key's length |
| `JsText.ToLowerAt` | src/sys_web/searchParams.ts:23 | the i-th character of the lower-cased key is the lower-cased i-th character |
| `JsText.ToLowerOfLower` | src/sys_web/searchParams.ts:23 | a key with no upper-case letter is its own lower-case form |
| `JsText.ToLowerIdempotent` | src/sys_web/searchParams.ts:23 | lower-casing twice is lower-casing once |
| `JsText.TrimStart` | src/sys_web/searchParams.ts:24 | the front half of trim: drops leading whitespace; defines no contract of its own, TrimStartSpec characterises it |
| `JsText.TrimEnd` | src/sys_web/searchParams.ts:24 | the back half of trim: drops trailing whitespace; defines no contract of its own, TrimEndSpec characterises it |
| `JsText.Trim` | src/sys_web/searchParams.ts:24 | String.prototype.trim as the front trim followed by the back trim; TrimSpec, TrimIdempotent and TrimIgnoresPadding characterise it |
| `JsText.TrimStartSpec` | src/sys_web/searchParams.ts:24 | the front trim keeps the longest suffix not starting with whitespace; everything dropped is whitespace |
| `JsText.TrimEndSpec` | src/sys_web/searchParams.ts:24 | the back trim keeps the longest prefix not ending with whitespace; everything dropped is whitespace |
| `JsText.TrimSpec` | src/sys_web/searchParams.ts:24 | a trimmed value neither starts nor ends with ECMAScript whitespace or a line terminator, is no longer than the input, and is the slice of the input left after dropping only whitespace before and after it |
| `JsText.TrimOfTrimmed` | src/sys_web/searchParams.ts:24 | a value with nothing to trim is left as it is |
| `JsText.TrimIdempotent` | src/sys_web/searchParams.ts:24 | trimming twice is trimming once |
| `JsText.BlankTrimsToEmpty` | src/sys_web/searchParams.ts:24 | an all-whitespace value trims to the empty string |
| `JsText.TrimIgnoresPadding` | src/sys_web/searchParams.ts:24 | whitespace added around a value does not change its trim |
| `SearchParams.KeyName` | src/sys_web/searchParams.ts:5-12 | each PARAMS entry's query key; every key name is lower-case, so a lower-cased query key can match it |
| `SearchParams.Lookup` | src/sys_web/searchParams.ts:5-12 | a key found in the table is the name of the entry returned; a key not found is the name of no entry |
| `SearchParams.LookupKeyName` | src/sys_web/searchParams.ts:5-12 | every table entry is found under its own name, so the six names are distinct |
| `SearchParams.Abs` | src/sys_web/searchParams.ts:38 | Math.abs is non-negative and is x or -x |
| `SearchParams.ParseNumber` | src/sys_web/searchParams.ts:79-84 | a value is accepted exactly when it is a string whose parseFloat is finite (not NaN, not an infinity), and then the number is that parse |
| `SearchParams.Dispatch` | src/sys_web/searchParams.ts:26-60 | the dispatch on a normalised key and value: the invalid list either stays or grows by that key, and only when the key is not in the table; the scene either stays or becomes the value, and only when the scene table accepts it |
| `SearchParams.Step` | src/sys_web/searchParams.ts:22-60 | one pair: the key lower-cased and the value trimmed, then dispatched; no contract of its own, the Step lemmas below give its effect on each field |
| `SearchParams.ApplyAll` | src/sys_web/searchParams.ts:22-61 | all pairs in query order: the invalid list keeps its prior contents as a prefix and grows by at most one key per pair |
| `SearchParams.StepSeesOnlyNormalisedPair` | src/sys_web/searchParams.ts:22-24 | a pair is handled exactly like its lower-cased key and trimmed value: keys match case-insensitively and surrounding whitespace of values is ignored |
| `SearchParams.StepScene` | src/sys_web/searchParams.ts:26-31 | a pair replaces the scene choice with its trimmed value exactly when it is a scene_file pair the scene table accepts; otherwise the choice is kept |
| `SearchParams.SoftwareRasterizerThresholdStep` | src/sys_web/searchParams.ts:32-40 | softwarerasterizer_threshold: a parsed 0 sets enabled to false and keeps the threshold; another number sets the threshold to its absolute value and keeps enabled; a rejected value changes nothing |
| `SearchParams.StepSoftwareRasterizer` | src/sys_web/searchParams.ts:32-40 | one pair leaves the rasterizer enabled iff it was and the pair is not a softwarerasterizer_threshold of 0; the threshold becomes the absolute value of a non-zero parse for that key, else is kept |
| `SearchParams.StepPlainNumeric` | src/sys_web/searchParams.ts:41-55 | impostors_threshold, impostors_texturesize, nanite_errorthreshold: a parsed value for that key becomes the field's absolute value; any other pair keeps the field |
| `SearchParams.RejectedNumberChangesNothing` | src/sys_web/searchParams.ts:32-55 | a numeric key whose value parseNumber rejects changes no setting, not the scene, and adds nothing to the invalid list |
| `SearchParams.ForceOnlyBillboardsStep` | src/sys_web/searchParams.ts:56-57 | impostors_forceonlybillboards sets forceOnlyBillboards to true whatever its value, and changes nothing else |
| `SearchParams.StepForceOnlyBillboards` | src/sys_web/searchParams.ts:56-57 | after one pair forceOnlyBillboards holds iff it held before or the pair's key is impostors_forceonlybillboards |
| `SearchParams.UnrecognisedKeyStep` | src/sys_web/searchParams.ts:58-60 | an unrecognised key is appended lower-cased to the invalid list and nothing else changes; a recognised key leaves the list as it is |
| `SearchParams.StepNumericWritesNonNegative` | src/sys_web/searchParams.ts:32-55 | after one pair each numeric setting is unchanged or non-negative |
| `SearchParams.InvalidKeysAppended` | src/sys_web/searchParams.ts:14-61 | over the whole query the invalid list becomes its prior contents followed by exactly the lower-cased unrecognised keys in query order |
| `SearchParams.SceneKeptWithoutValidSceneParam` | src/sys_web/searchParams.ts:22-31 | with no valid scene_file pair the returned scene is the default scene |
| `SearchParams.LastValidSceneParamWins` | src/sys_web/searchParams.ts:22-31 | the returned scene is the trimmed value of the last valid scene_file pair; invalid ones after it do not matter |
| `SearchParams.ForceOnlyBillboardsIffKeyPresent` | src/sys_web/searchParams.ts:56-57 | over the query forceOnlyBillboards ends true iff it was true or some key is impostors_forceonlybillboards; it is never cleared |
| `SearchParams.NumericWritesAreNonNegative` | src/sys_web/searchParams.ts:32-55 | over the query each numeric setting is either unchanged or non-negative |
| `SearchParams.NonNegativeSettingsStayNonNegative` | src/sys_web/searchParams.ts:32-55 | numeric settings that start non-negative stay non-negative |
| `SearchParams.PlainNumericLastWins` | src/sys_web/searchParams.ts:41-55 | each plain numeric field ends as the absolute value of the last parsed value given for its key, or unchanged if there is none |
| `SearchParams.SoftwareRasterizerEnabledUnlessZero` | src/sys_web/searchParams.ts:32-40 | the software rasterizer ends enabled iff it was enabled and no softwarerasterizer_threshold value parses to 0 |
| `SearchParams.SoftwareRasterizerThresholdLastNonZeroWins` | src/sys_web/searchParams.ts:32-40 | the threshold ends as the absolute value of the last non-zero parse for softwarerasterizer_threshold, or unchanged if there is none |
| `SearchParams.SoftwareRasterizerConfig.constructor` | src/sys_web/searchParams.ts:36-38 | the nested target.softwareRasterizer record with its enabled flag and threshold as given |
| `SearchParams.ImpostorsConfig.constructor` | src/sys_web/searchParams.ts:44-57 | the nested target.impostors record with its billboard threshold, texture size and billboards-only flag as given |
| `SearchParams.NaniteRenderConfig.constructor` | src/sys_web/searchParams.ts:54 | the nested target.nanite.render record with its error threshold as given |
| `SearchParams.NaniteConfig.constructor` | src/sys_web/searchParams.ts:54 | the target.nanite record holding the given render record |
| `SearchParams.Config.constructor` | src/sys_web/searchParams.ts:16-17 | CONFIG as the reader sees it: the nested software-rasterizer, impostor and nanite records and the scene file, each as given |
| `SearchParams.Config.Snapshot` | src/sys_web/searchParams.ts:36-54 | the six fields of CONFIG the reader writes, read off the nested records; no contract of its own |
| `SearchParams.InvalidSearchParams.constructor` | src/sys_web/searchParams.ts:14 | INVALID_SEARCH_PARAMS starts as the empty list |
| `SearchParams.HandleParam` | src/sys_web/searchParams.ts:22-60 | one callback call writes the config objects, the invalid list and the scene exactly as Step gives them from their old values for that raw pair |
| `SearchParams.ApplySearchParams` | src/sys_web/searchParams.ts:16-73 | the loop leaves the target's settings, the invalid list and the returned scene exactly as ApplyAll gives them from their old values and the default scene, and writes that scene into CONFIG.sceneFile |
| `Camera.Min` | src/camera.ts:77 | Math.min is at most both arguments and is one of them |
| `Camera.Max` | src/camera.ts:77 | Math.max is at least both arguments and is one of them |
| `Camera.Clamp` | src/camera.ts:76-78 | clamp never exceeds max; with min <= max it lies in [min, max], is x when x is in range, min below it and max above it |
| `Camera.Sign` | src/camera.ts:81 | Math.sign is 1, -1 or 0 exactly when x is positive, negative or zero |
| `Camera.Abs` | src/camera.ts:81 | Math.abs is non-negative and is x or -x |
| `Camera.Mod` | src/camera.ts:80-82 | mod(x, div) with a quotient truncated towards zero; no contract of its own, the Mod lemmas below give its range, sign and offset |
| `Camera.ModOfNonNegative` | src/camera.ts:80-82 | for x >= 0 and div > 0, mod(x, div) lies in [0, div) |
| `Camera.ModOfNegative` | src/camera.ts:80-82 | for x < 0 and div > 0, mod(x, div) lies in (-div, 0]: it is not wrapped to a non-negative value |
| `Camera.ModIsOdd` | src/camera.ts:80-82 | mod(-x, div) == -mod(x, div): the result takes the sign of x |
| `Camera.ModOfInRange` | src/camera.ts:80-82 | a value in [0, div) is returned unchanged (in particular mod(0, div) == 0) |
| `Camera.ModOffsetIsMultiple` | src/camera.ts:80-82 | x - mod(x, div) is a whole multiple of div |
| `Camera.DirectionSign` | src/camera.ts:58-59 | the sign helper gives 0 iff both or neither keys are held, +1 iff only the positive one, -1 iff only the negative one |
| `Camera.TranslationDelta` | src/camera.ts:58-66 | each translation delta is +m, -m or 0 with m = deltaTime * movementSpeed, decided by right/left, up/down and backward/forward |
| `Camera.TranslationDeltaOpposite` | src/camera.ts:61-65 | holding the opposite keys gives the negated translation |
| `Camera.MouseAngle` | src/camera.ts:68-69 | a mouse delta scaled by deltaTime and the rotation speed; no contract of its own, YawAndPitch and YawRange are stated over it |
| `Camera.YawAndPitch` | src/camera.ts:68-71 | the pitch passed to rotate lies in [-pi/2, pi/2] for any mouse input, time and speed |
| `Camera.YawRange` | src/camera.ts:68-70 | the yaw lies in [0, 2pi) for a non-negative raw yaw and in (-2pi, 0] for a negative one, and equals a raw yaw already in [0, 2pi) |
| `Camera.NegativeYawStaysNegative` | src/camera.ts:68-70 | a mouse x of -1 with unit time and speed gives yaw -1, outside [0, 2pi) |
| `Camera.BoxCenter` | src/camera.ts:25-29 | the center of a well-formed box lies inside it on every axis |
| `Camera.HalfExtent` | src/camera.ts:30-32 | the half extents of a well-formed box are non-negative |
| `Camera.FocusEye` | src/camera.ts:34 | the framing eye shares the center's x and y: it looks at the box straight along z |
| `Camera.CenterIsMidpoint` | src/camera.ts:25-32 | the center minus the half extent is min and plus it is max on every axis |
| `Camera.FocusEyeOffset` | src/camera.ts:25-34 | the eye shares the center's x and y and lies halfY / tan(fov/2) + halfZ beyond the center along z |
| `Camera.FocusIgnoresXExtent` | src/camera.ts:25-34 | boxes with equal y and z ranges and equal x midpoint give the same eye and target: the x extent is ignored |
| `Camera.FocusEyeOutsideBox` | src/camera.ts:30-34 | for a well-formed box and tan(fov/2) > 0 the eye's z is at least the box's front face max.z, and beyond it when the box has height |
| `Camera.Camera.constructor` | src/camera.ts:17-21 | a new camera's view is lookAt(position, target, up) |
| `Camera.Camera.FocusBoundingBox` | src/camera.ts:23-41 | the view becomes lookAt from the framing eye to the box center with the up vector (0, 1, 0) |
| `Camera.Camera.Translate` | src/camera.ts:43-47 | the view becomes the old view translated by (x, y, z) in camera space |
| `Camera.Camera.Rotate` | src/camera.ts:49-55 | the view becomes the old view rotated by (x, y, z) in camera space |
| `Camera.Camera.Update` | src/camera.ts:57-73 | the view is translated by the key-driven delta, then rotated by (-yaw, -pitch, 0) with yaw reduced by mod 2π, keeping its sign, and pitch clamped |

## Left out

- `src/passes/rasterizeHw/rasterizeHwPass.ts`: shader, pipeline, bind-group and render-pass creation are WebGPU calls. Its cache and binding helpers live in `_shared.ts`, which is not part of this model.
- `window.location.search` and URLSearchParams decoding: the model receives the decoded (key, value) pairs in query order.
- `console.warn` / `console.log` and the `CONFIG.isTest` branch that guards them: output only, no state change.
- `setSceneName`: it navigates by assigning `location.search`, which is I/O.
- `parseFloat`: an abstract function (the `parseFloat` field of `SearchParams.Env`) returning a finite real, NaN or an infinity. Its prefix parsing and binary64 rounding are not modelled.
- `isValidSceneName` and the `SCENES` table: an abstract predicate (the `isValidSceneName` field of `SearchParams.Env`).
- `JsText.ToLower`: maps only ASCII A-Z. JavaScript's `toLowerCase` also maps other Unicode letters; all recognised keys are ASCII, so this only changes how a non-ASCII unrecognised key is recorded.
- `JsText.LowerChar`: maps only ASCII A-Z to a-z, one character to one; JavaScript also lowers other letters, and U+0130 lowers to two characters.
- `JsText.ToLowerAt`: the character-by-character statement holds for the ASCII-only lowering, not for full Unicode lowering, which can change the length.
- `JsText.ToLowerOfLower`: "no A-Z letter" means unchanged only under ASCII-only lowering; JavaScript would still lower a letter such as É.
- The rest of CONFIG and CAMERA_CFG (`constants.ts` is not part of this model): `movementSpeed`, `rotationSpeed`, the camera's start position and target and `tan(fovDgr/2 * pi/180)` are parameters.
- The matrix library (`mat4.lookAt`, `inverse`, `translate`, `rotateX/Y/Z`): the view matrix is the symbolic term of the operations applied. Round trips such as translate(d) then translate(-d) hold in floating point only within tolerance and are not stated.
- `Math.tan` and the degree-to-radian conversion: the caller passes the tangent of half the field of view.
- The `Input` class: replaced by a record of the six direction keys and the mouse deltas.
- Floating-point rounding, NaN and infinities in the camera arithmetic: numbers are reals. Because of this, `Camera.Mod` requires a non-zero divisor, where JavaScript would give NaN for 0; the only caller passes 2π.
- `Camera.FocusEye` requires a non-zero tangent, where JavaScript would divide by zero; a field of view in (0°, 180°) has a positive tangent.
- Bounding boxes whose `min`/`max` arrays have fewer than three entries (JavaScript would read `undefined` and produce NaN): boxes are three-component records.
- `Camera.update` declares a `Mat4` return type but returns nothing; the model returns nothing.
