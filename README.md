# Wheel of Fate — a Dafny model of its game rules and loaders

Wheel of Fate is a browser game. Players enter up to 30 options on a check-in
form. The game spreads them over 30 slots painted on a spinning disk and
drops a ball onto it. The option whose slice the ball comes to rest on wins.
The graphics come from three.js, the physics from cannon and the animation
from GSAP. Around that glue sit five pieces of logic with precise rules, and
this project models those five and proves their properties:

| file | module | what it models |
|---|---|---|
| `checkinform.dfy` | `CheckIn` | the check-in form: lodash `trim`, Euclid's `gcd`, the `addEntry` rules, and the 30-slot session `go` builds (round-robin copies or weighted draws then a shuffle) |
| `wheel.dfy` | `Wheel` | the game's pure rules: the polar angle of the ball and the slice it lands in, the disk's fill colours, the lights-mode-1 glow levels, the glow-offset cycle, the bar and wall pose rule in polar form, and `mapRange` |
| `game.dfy` | `Game` | the `Application` object: the `standBy`/`playing`/`lightsMode` flags, `gameStats`, winner resolution, the painted disk, the bar lights, the glow timer and the wheel tween |
| `pmrem.dfy` | `Pmrem` | `PMREMGenerator`: the level count and sizes, the source filters, per-level roughness, query scale and cascade source, the six-face render order, saving and restoring the renderer's settings, the seam remap and the face table |
| `hdrcube.dfy` | `HdrCube` | `HDRCubeTextureLoader`: the bit-level float32 to binary16 `toHalf` (IEEE 754-2008, section 3.6), the texture settings for the requested type, and the six-file `loaded` counter |
| `preloader.dfy` | `Preload` | the asset preloader: `load`, the seven `start` blocks (flags and requests), `getManifestByType`, `checkManifestCompletion`, the load callbacks and the five getters |
| `entries.dfy`, `random.dfy`, `numbers.dfy`, `textures.dfy`, `wrappers.dfy`, `seqs.dfy` | shared | entries as identity-compared objects, nondeterministic shuffle and weighted choice, JavaScript numbers (finite, the infinities, NaN) with an abstract positive `PI`, the three.js texture settings, `Option`, a sequence lemma |

Code that changes state in place is modelled imperatively: `Application`,
`Form`, `Generator`, `Renderer`, `CubeLoad` and `Preloader` are classes,
their loops are `while` loops with invariants, and each method's `ensures`
ties the new state to a specification function whose properties are proved
as lemmas. The pure parts are functions and lemmas.

Several quirks of the code are kept as written:

- **Unused weights.** In the round-robin branch of `go` the slots copy the entries' weights. Nothing reads a slot's weight, though: `addEntry` always stores 1, so `rwc` and the form's list read only 1s, and the weighted-draw slots carry none.
- **Ties go high.** The winner scan includes both ends of every slice, so on a boundary the later slice wins.
- **Dead 0.1 branch.** The third branch of the mode-1 glow repeats the second's condition, so the level 0.1 never appears.
- **Glow precedence.** Operator precedence makes the mode-2 phase `offset + index + 1/30` quarter turns, so the glow pattern repeats every eight bars instead of spreading once over the ring.
- **The `.name` counter.** `onBallAsleep` counts wins under `currentWinner.name`, a field no entry has, so every win goes to the key `"undefined"`. That counter becomes NaN on the first win.
- **A throw leaves the round running.** With no winner, `onBallAsleep` throws at the `.name` read before it sets the round-end timeout, so nothing clears `playing` and `startGame` does nothing from then on.
- **`'Fbx'` is never loaded.** The preloader's usage example spells the type `'Fbx'`, which no block serves, so such an item never loads.
- **NaN in `toHalf`.** `toHalf` neither keeps NaN nor stays within 16 bits on overflow; see Findings.

The model follows the code throughout; where the code's comments describe
something else (`toHalf`), the difference is a Finding below.

## Model

| member | source | states |
|---|---|---|
| CheckIn.SkipLeading | src/CheckInForm.js:32 | the first index at or after `i` that is not whitespace, or the end of the string |
| CheckIn.SkipLeadingPassesWhitespace | src/CheckInForm.js:32 | every character the leading skip passes over is whitespace |
| CheckIn.SkipTrailing | src/CheckInForm.js:32 | the end of `s[lo..hi]` with trailing whitespace dropped: within `lo..hi`, and the character before it is not whitespace |
| CheckIn.SkipTrailingPassesWhitespace | src/CheckInForm.js:32 | every character the trailing skip drops is whitespace |
| CheckIn.Trim | src/CheckInForm.js:32-33 | lodash `trim`: the result is no longer than the input and has no whitespace at either end |
| CheckIn.TrimDropsOnlyWhitespace | src/CheckInForm.js:32-33 | the input is whitespace, then the trimmed string as a contiguous slice, then whitespace |
| CheckIn.TrimBlank | src/CheckInForm.js:32-34 | a name trims to the empty string exactly when it is all whitespace, so exactly blank names fail the length test |
| CheckIn.TrimKeeps | src/CheckInForm.js:32 | a string with no whitespace at either end is returned unchanged |
| CheckIn.TrimIdempotent | src/CheckInForm.js:32 | trimming twice is trimming once |
| CheckIn.Gcd | src/CheckInForm.js:5-10 | Euclid's recursion: the result divides both arguments |
| CheckIn.GcdZero | src/CheckInForm.js:6-8 | `gcd(a, 0) == a` |
| CheckIn.GcdGreatest | src/CheckInForm.js:5-10 | every common divisor of the arguments divides the result, so it is the greatest common divisor |
| CheckIn.RoundRobinShare | src/CheckInForm.js:65-68 | when `n` divides 30, each of the `n` entry positions recurs as `i % n` for exactly `30 / n` of the slots `i` in 0..29 |
| CheckIn.RoundRobinSlots | src/CheckInForm.js:65-68 | 30 pairwise distinct new objects; slot `i` copies the id and weight of entry `i % n` |
| CheckIn.ShuffledDraws | src/CheckInForm.js:69-76 | 30 distinct new objects, each with the id of an input entry and no weight, forming a permutation of the drawn list |
| CheckIn.DrawSlots | src/CheckInForm.js:64-76 | the slots `go` builds: length 30 and distinct; round-robin copies when `30 % n == 0`, otherwise a shuffled permutation of weighted draws |
| CheckIn.Form.constructor | src/CheckInForm.js:14-21 | visible, no error, no entries |
| CheckIn.Utf16Length | src/CheckInForm.js:34 | JavaScript's `.length`: between the number of characters and twice it, and equal to it exactly when no character lies outside the Basic Multilingual Plane |
| CheckIn.Utf16LengthAppend | src/CheckInForm.js:34 | the code units of a concatenation are the sum of the parts' |
| CheckIn.Utf16LengthAstral | src/CheckInForm.js:34 | `k` characters outside the Basic Multilingual Plane are `2k` code units |
| CheckIn.TwentyEmojiTooLong | src/CheckInForm.js:34 | twenty emoji are more than 30 code units, so `addEntry` refuses them |
| CheckIn.Form.AddEntry | src/CheckInForm.js:27-43 | a full list of 30 sets the error "Too many entries." and adds nothing; otherwise exactly one entry (trimmed name, weight 1) is appended iff the trimmed name is non-empty and its `.length` in UTF-16 code units is at most 30, else nothing changes; the list never exceeds 30 |
| CheckIn.Form.AppendName | src/CheckInForm.js:32-42 | with room left, appends the trimmed name with weight 1 exactly when it is non-empty and at most 30 UTF-16 code units long, the existing entries untouched |
| CheckIn.Form.Go | src/CheckInForm.js:61-80 | with 1..30 entries (the Go button of line 131 needs 2) the form hides; 30 distinct slots are built whose ids come from the entries, copies of entry `i % n` when `n` divides 30 and otherwise weightless draws; a standing-by game adopts them, gives every id a zero counter and changes nothing else; a game no longer standing by is left entirely unchanged |
| CheckIn.Form.Test | src/CheckInForm.js:82-86 | the form hides and a standing-by game starts with a permutation of the demo entries, every id at a zero counter and nothing else changed; a game no longer standing by is left entirely unchanged |
| Entries.WeightedChoice | src/CheckInForm.js:72 | `rwc` returns the id of some entry with a positive weight |
| Entries.DistinctPermutation | src/CheckInForm.js:75 | reordering pairwise distinct objects keeps them pairwise distinct |
| Random.Shuffle | src/CheckInForm.js:75 | lodash `shuffle` returns a permutation of its input (same length, same multiset) |
| Numbers.Div | src/Loaders/PMREMGenerator.js:98 | JavaScript division: finite with `r * b == a` iff `b != 0`, NaN iff `0 / 0`, `+Infinity` iff a positive number over 0 |
| Wheel.SliceWidth | src/index.js:852 | a slice is positive and `n` slices make exactly a full turn |
| Wheel.PolarCoord | src/index.js:863-866 | for an `atan2` result in [-PI, PI] the normalised angle lies in [0, 2*PI) and is `theta - PI` or `theta + PI` |
| Wheel.SliceIndex | src/index.js:867-874 | the slice the scan settles on: a valid index that covers `p` with no later slice covering it; any other covering slice is the one just before |
| Wheel.FillStyle | src/index.js:821-822 | red iff the segment is the winner's; otherwise black iff the index is odd, and palette colour `i` for even `i` |
| Wheel.Disk | src/index.js:817-845 | nothing is painted for fewer than two entries; otherwise one segment per entry, segment `i` spanning slice `i` with its fill and caption |
| Wheel.DiskSpansTurn | src/index.js:819-820 | the first segment starts at 0 and the last ends at a full turn |
| Wheel.DiskContiguous | src/index.js:819-820 | each segment ends where the next begins |
| Wheel.DiskSegment | src/index.js:819-840 | every segment is a proper arc captioned with its own entry's id |
| Wheel.OnlyWinnerRed | src/index.js:821-822 | with distinct entries, exactly the winner's segment is red |
| Wheel.StaleWinnerPaintsNoRed | src/index.js:821-822 | a winner not on the disk (none, or from an earlier list) paints no segment red |
| Wheel.BarIntensity | src/index.js:484-493 | level 1 iff the bar is `ballIndex` or `ballIndex + 1`, 0.2 iff `ballIndex - 1` or `ballIndex + 2`, 0 iff farther; never 0.1 |
| Wheel.NoWrapAtLastBar | src/index.js:484-493 | a ball over bar 29 leaves bars 0 and 1 dark: there is no wraparound |
| Wheel.GlowPhaseStep | src/index.js:498 | with the phase `(offset + index + 1/30) * PI/4`, each bar is a quarter turn ahead of the one before, and bar `i + 8` is a full turn ahead of bar `i`, so the glow repeats every eight bars |
| Wheel.GlowPhaseTick | src/index.js:498 | one more step of the offset gives each bar the phase its neighbour had, so the pattern moves along by one bar |
| Wheel.GlowPhaseNotSpread | src/index.js:498 | neighbouring bars differ by a quarter turn, not by the 1/30 of it that `(offset + index + 1) / nbBars` would give |
| Wheel.NextGlowOffset | src/index.js:298-304 | one tick keeps the offset within 0..29 |
| Wheel.GlowAfter | src/index.js:298-304 | the offset after any number of ticks stays within 0..29 |
| Wheel.GlowCycles | src/index.js:298-304 | after `t` ticks the offset is `(offset + t) % 30`: it cycles by one with wrap to 0 |
| Wheel.BarRadius | src/index.js:612 | odd bars sit at `radius * markBarHeight`, even bars at `radius` |
| Wheel.SetupPlacement | src/index.js:611-637 | bar `i` of 30 starts at an angle in [0, 2*PI) that its wall shares and that the bar faces along; the bar at the alternating radius, the wall at the plain one |
| Wheel.Placement | src/index.js:749-784 | the tween's pose is the set-up pose turned back by the rotation: the same radii, every angle and the bar's yaw less the rotation, the wall's turn more by it |
| Wheel.PlacementRule | src/index.js:749-784 | bar `i` and wall `i` share the angle `i * 2*PI / 30 - rotation`; the bar faces along it at its alternating radius, the wall sits at the plain radius, tilted by -PI/2 and turned to complete 3*PI/2 |
| Wheel.PlacementAtRest | src/index.js:611-637 | at rotation 0 the tween's pose rule gives exactly the set-up placement |
| Wheel.PlacementFullTurn | src/index.js:754-784 | one more full turn of rotation moves every bar angle back by a full turn and keeps its radius |
| Wheel.FirstBarAtRest | src/index.js:621 | bar 0 at rest is at radius 20, angle 0 |
| Wheel.MapRange | src/index.js:62-64 | for a non-empty input range the result is the linear interpolation `(r - outMin) * (inMax - inMin) == (num - inMin) * (outMax - outMin)`; an empty range gives a non-finite number |
| Wheel.MapRangeEnds | src/index.js:62-64 | the ends of the input range map to the ends of the output range |
| Game.Increment | src/index.js:704 | JavaScript `o[key]++` on the stored value: `undefined` and NaN give NaN, a finite value goes up by 1 |
| Game.MakeDefaults | src/index.js:79-110 | 30 distinct demo entries carrying the default ids in order and no weight |
| Game.SetupBars | src/index.js:611-642 | bar `i` and its wall start at the set-up placement for every `i` in 0..29 |
| Game.Application.constructor | src/index.js:166-181 | standing by, not playing, lights mode 2, polar angle 0, glow offset 0, no winner, empty stats, the demo entries, bars at their set-up placement, no round-end timeout pending, disk time 1.0 |
| Game.Application.InitGame | src/index.js:308-327 | acts only while standing by, then clears `standBy` for good; a non-empty list becomes the entries, a missing or empty one a permutation of the demo entries; every id gets a zero counter; nothing else changes |
| Game.Application.StartGame | src/index.js:674-679 | a no-op while playing; otherwise starts playing in lights mode 1 |
| Game.Application.OnBallAsleep | src/index.js:698-719 | lights mode 2; with no winner the `.name` read throws, so no counter moves and no round-end timeout is set; otherwise the total goes up by exactly 1, only the `"undefined"` counter is incremented, and one more timeout is pending |
| Game.Application.EndRound | src/index.js:715-716 | a pending round-end timeout fires: it clears `playing` and is no longer pending |
| Game.Application.SetCurrentWinner | src/index.js:879-885 | the winner becomes the entry, and it is reassigned exactly when it differs, so a repeated call changes nothing |
| Game.Application.ComputeCurrentWinner | src/index.js:851-877 | with no hit or no uv, the polar angle and winner are unchanged; otherwise the polar angle is the normalised one and the winner is the entry of the slice the scan settles on |
| Game.Application.ScanSlices | src/index.js:867-874 | the scan over all slices leaves the winner at the entry of the last covering slice |
| Game.Application.UpdateTexture | src/index.js:803-849 | the disk shows exactly the painted segments for the current entries and winner |
| Game.Application.UpdateBarLights | src/index.js:476-503 | the disk time advances by 0.05; mode 0 keeps every bar level; mode 1 sets each bar from the ball's slice among 30; mode 2 sets each bar from its glow phase |
| Game.Application.GlowTick | src/index.js:298-304 | the glow offset advances one step of the cycle |
| Game.Application.TweenWheel | src/index.js:741-789 | the wheel turns to minus the rotation, and every bar and wall takes the pose of the pose rule |
| Game.Application.TweenTick | src/index.js:689-692 | a tween update sets the rotation, then poses the wheel for it |
| Game.Application.RenderFrame | src/index.js:1105 | one frame in registration order: the disk time advances by 0.05 and the bars are lit per mode from the previous frame's polar angle; the disk is painted with the previous winner; then with no hit or no uv the polar angle and winner stay, and otherwise they are recomputed from the hit |
| Game.WinnerCountsNeverMove | src/index.js:704 | an entry's own counter never changes on a win, since only the `"undefined"` key is touched |
| Game.FirstWinStoresNaN | src/index.js:704 | from the seeded counters (no id literally `"undefined"`), the first win stores NaN |
| Pmrem.Log2 | src/Loaders/PMREMGenerator.js:55 | for a power of two, the exponent `k` with `2^k` equal to it |
| Pmrem.NumLods | src/Loaders/PMREMGenerator.js:55 | for a resolution `2^k`, `numLods == k - 2` |
| Pmrem.DefaultNumLods | src/Loaders/PMREMGenerator.js:31 | the default resolution 256 gives 6 levels |
| Pmrem.PrefilterFilter | src/Loaders/PMREMGenerator.js:34-38 | the filter is linear iff the encoding is Linear, Gamma or sRGB, nearest otherwise |
| Pmrem.LodSize | src/Loaders/PMREMGenerator.js:57-64 | level 0 has the full resolution; every later level is at least 16 |
| Pmrem.LodSizeClosedForm | src/Loaders/PMREMGenerator.js:62 | level `i` is `max(16, resolution / 2^i)` |
| Pmrem.LodSizesNonIncreasing | src/Loaders/PMREMGenerator.js:62 | level sizes never grow |
| Pmrem.DefaultLodSizes | src/Loaders/PMREMGenerator.js:57-64 | resolution 256 gives sizes 256, 128, 64, 32, 16, 16 |
| Pmrem.Roughness | src/Loaders/PMREMGenerator.js:98-99 | for a level of at least two, a finite roughness in 0..0.9; NaN for the only level of one |
| Pmrem.RoughnessEnds | src/Loaders/PMREMGenerator.js:98-99 | with at least two levels, level 0 has roughness 0 and the last level 0.9 |
| Pmrem.RoughnessIncreasing | src/Loaders/PMREMGenerator.js:98-99 | roughness is finite and strictly increasing over the levels |
| Pmrem.SingleLevelRoughnessIsNaN | src/Loaders/PMREMGenerator.js:98-99 | with a single level the roughness is `0/0`, NaN |
| Pmrem.LevelSource | src/Loaders/PMREMGenerator.js:96-105 | only level 0 samples the source; any other level samples an earlier level, never past level 4 |
| Pmrem.CascadeReadsEarlierLevels | src/Loaders/PMREMGenerator.js:96-105 | only level 0 samples the source; level `i` samples level `i - 1` up to level 5, and every later level samples level 4 |
| Pmrem.Renderer.Render | src/Loaders/PMREMGenerator.js:121 | a render call appends one draw and changes nothing else |
| Pmrem.RenderTarget.constructor | src/Loaders/PMREMGenerator.js:59 | a cube target of the given size and settings, face 0 active |
| Pmrem.FaceDraws | src/Loaders/PMREMGenerator.js:126-134 | six draws whose active face and `faceIndex` uniform are 0..5 in order |
| Pmrem.Schedule | src/Loaders/PMREMGenerator.js:96-107 | six draws per level |
| Pmrem.ScheduleOrder | src/Loaders/PMREMGenerator.js:96-107 | the draws of `update` are six per level: draw `k` is face `k % 6` of level `k / 6` with that level's roughness, query scale, size and source |
| Pmrem.Generator.constructor | src/Loaders/PMREMGenerator.js:28-79 | absent arguments default to 256 and 16; the source's filters follow its encoding and its mipmaps are only ever cleared, and nothing else of the source changes (its other settings, `needsUpdate` and its images); one target per level of the right size with the source's settings; the `SAMPLES_PER_LEVEL` define ends up equal to `samplesPerLevel`; the shader samples the source |
| Pmrem.Generator.CreateLods | src/Loaders/PMREMGenerator.js:57-64 | exactly `numLods` targets (none when it is not positive); target `j` is level `j`, square, of size `LodSize(j)` |
| Pmrem.Generator.RenderFace | src/Loaders/PMREMGenerator.js:117-123 | sets the target's active face and the `faceIndex` uniform, then issues one draw |
| Pmrem.Generator.RenderCube | src/Loaders/PMREMGenerator.js:126-134 | renders faces 0..5 in order under unchanged uniforms |
| Pmrem.Generator.Update | src/Loaders/PMREMGenerator.js:81-114 | draws the whole level schedule under linear tone mapping, exposure 1 and no gamma, then gives `toneMapping`, `toneMappingExposure`, `gammaInput` and `gammaOutput` back their old values |
| Pmrem.SeamRemap | src/Loaders/PMREMGenerator.js:217-225 | the shader's remap is `u * (1 + 1/mapSize)` |
| Pmrem.SeamRemapEdges | src/Loaders/PMREMGenerator.js:218-225 | -1 maps to `-1 - 1/mapSize`, 1 to `1 + 1/mapSize`, 0 to 0 |
| Pmrem.FaceDirection | src/Loaders/PMREMGenerator.js:226-238 | the direction is a point on the unit cube: magnitude 1 on the face's own axis (X for faces 0-1, Y for 2-3, Z for any other face number), and the magnitudes of u and v on the other two |
| Pmrem.FaceTableSelectsItsFace | src/Loaders/PMREMGenerator.js:226-238 | inside each face, cube map face selection (OpenGL ES 2.0, section 3.7.5, table 3.21) applied to the table's direction gives back that face and its coordinates |
| Pmrem.FaceMajorAxis | src/Loaders/PMREMGenerator.js:226-238 | face `f`'s direction has component +1 or -1 on that face's axis, in the order +X, -X, +Y, -Y, +Z, -Z |
| HdrCube.SignBit | src/Loaders/HDRCubeTextureLoader.js:49 | the result is 0 or 0x8000, and 0x8000 iff bit 31 of the input is set |
| HdrCube.JsAnd | src/Loaders/HDRCubeTextureLoader.js:63 | JavaScript `a && b` on numbers: 0 when `a` is 0, else `b` |
| HdrCube.DenormalHalf | src/Loaders/HDRCubeTextureLoader.js:69-76 | for exponents 103..112 the rounded denormal is at most 0x400, where rounding up reaches the smallest normal |
| HdrCube.NormalHalf | src/Loaders/HDRCubeTextureLoader.js:79-83 | for exponents 113..142 the rounded normal lies in 0x400..0x7c00, rounding up at most into Inf |
| HdrCube.HalfInRange | src/Loaders/HDRCubeTextureLoader.js:55-83 | for exponents up to 142: signed zero below 103; the result is under 0x10000, bit 15 is the input's sign bit, and the magnitude is at most Inf |
| HdrCube.OverflowHalf | src/Loaders/HDRCubeTextureLoader.js:58-64 | exponent 255 gives the sign with 0x7c00 (Inf) for Inf and NaN alike; exponents 143..254 OR the whole 23-bit mantissa into that as well |
| HdrCube.ToHalf | src/Loaders/HDRCubeTextureLoader.js:44-85 | `toHalf` as written, by exponent range: signed zero below 103, a 16-bit half with the sign in bit 15 up to 142, signed Inf at 255, and signed Inf with the whole mantissa ORed in between |
| HdrCube.NormalRoundTrip | src/Loaders/HDRCubeTextureLoader.js:79-83 | every normal half (exponent 1..30, any mantissa, either sign) comes back from the float32 of the same value |
| HdrCube.DenormalRoundTrip | src/Loaders/HDRCubeTextureLoader.js:66-76 | every non-zero denormal half, either sign, comes back from the float32 of the same value, with nothing rounded |
| HdrCube.ToHalfLosesNaN | src/Loaders/HDRCubeTextureLoader.js:58-64 | the quiet NaN 0x7fc00000 becomes +Inf 0x7c00, which is not a half NaN |
| HdrCube.ToHalfOverflowsSixteenBits | src/Loaders/HDRCubeTextureLoader.js:63 | the largest finite float32 becomes 0x7fffff, wider than 16 bits |
| HdrCube.StoreUint16 | src/Loaders/HDRCubeTextureLoader.js:150 | a `Uint16Array` element keeps the low 16 bits: under 0x10000, and any 16-bit value unchanged |
| HdrCube.ToHalfStoredOverflowIsNaN | src/Loaders/HDRCubeTextureLoader.js:150-154 | stored as `RGBEByteToRGBHalf` stores it, the largest finite float32 becomes 0xffff, a half NaN |
| HdrCube.ToHalfIntended | src/Loaders/HDRCubeTextureLoader.js:57-64 | the conversion the comments describe: always 16 bits with the sign in bit 15, equal to `toHalf` up to exponent 142, NaN iff the input is NaN, and signed Inf on any other overflow |
| HdrCube.CubeParams | src/Loaders/HDRCubeTextureLoader.js:104-110 | `UnsignedByteType` selects RGBE, RGBA, nearest filters and no mipmaps, and any other type selects linear, RGB, linear filters and mipmaps; the type is kept and anisotropy is 0 |
| HdrCube.Completes | src/Loaders/HDRCubeTextureLoader.js:186-190 | only a callback that finds five earlier ones can complete the cube, and it does exactly when it parsed to pixel data |
| HdrCube.CompletesAtMostOnce | src/Loaders/HDRCubeTextureLoader.js:186-190 | over any run of file callbacks the cube completes at most once, and exactly when the sixth callback parsed to pixel data |
| HdrCube.AfterSixNeverCompletes | src/Loaders/HDRCubeTextureLoader.js:186 | once six callbacks have run, no later callback completes the cube |
| HdrCube.CubeLoad.constructor | src/Loaders/HDRCubeTextureLoader.js:102-116 | a new cube texture with the settings for the type, no faces, and the counter at 0 |
| HdrCube.CubeLoad.OnFile | src/Loaders/HDRCubeTextureLoader.js:122-191 | the counter goes up on every callback, even when parsing fails; an `image` result throws; pixel data is stored as face `i` with the cube's settings; the cube is flagged and `onLoad` runs exactly when this callback makes the count 6 and parsed to pixel data |
| Preload.KnownTypeNames | src/utils/preloader.js:68-148 | the recognised types are exactly HDRCubeMap, JsonModel, GLTF, FBX, Texture, Font and Image |
| Preload.FbxSpelledFbxIsUnknown | src/utils/preloader.js:103 | the type `'Fbx'` used in the usage example has no loader |
| Preload.ByType | src/utils/preloader.js:151-153 | `getManifestByType(t)`: no longer than the manifest, and every item it returns has type `t` |
| Preload.ByTypeMembers | src/utils/preloader.js:151-153 | an item is in `getManifestByType(t)` iff it is in the manifest with type `t` |
| Preload.ByTypeAppend | src/utils/preloader.js:151-153 | the filter distributes over concatenation, so it keeps manifest order |
| Preload.KindRequestsUpTo | src/utils/preloader.js:68-78 | a block requests only items of its own type, each with its own loader |
| Preload.KindRequestsIncreasing | src/utils/preloader.js:68-78 | a block requests its items in manifest order, each once |
| Preload.KindRequestsFollowByType | src/utils/preloader.js:68-78 | a block's requests load exactly `getManifestByType`'s items, in its order |
| Preload.Requests | src/utils/preloader.js:67-149 | every request of the blocks names an item of the manifest |
| Preload.RequestsMatchTypes | src/utils/preloader.js:67-149 | every request `start` issues goes to the loader of its item's type |
| Preload.KindRequestsCover | src/utils/preloader.js:68-78 | a block requests every item of its type, by index |
| Preload.RequestKinds | src/utils/preloader.js:67-149 | every request goes to the loader of one of the blocks that ran |
| Preload.RequestsCover | src/utils/preloader.js:67-149 | the blocks request, by index, every item whose type one of them serves |
| Preload.RequestsDistinct | src/utils/preloader.js:67-149 | blocks for distinct loaders never request the same item twice |
| Preload.RequestedIff | src/utils/preloader.js:67-149 | the blocks for some loaders request an item exactly when one of them serves its type |
| Preload.StartRequestsEachKnownItemOnce | src/utils/preloader.js:67-149 | `start` requests an item iff its type is recognised, and no item twice |
| Preload.ClearFlags | src/utils/preloader.js:68-69 | every item of the type gets `isLoaded = false`; every other item is unchanged |
| Preload.ClearedByItems | src/utils/preloader.js:67-148 | after the blocks, an item is unflagged exactly when some block serves its type, and is otherwise unchanged |
| Preload.StartedItems | src/utils/preloader.js:67-148 | after `start`, items of recognised types are unflagged and the others are left as they were |
| Preload.StartOrderServesKnownTypes | src/utils/preloader.js:67-148 | `start` has a block for exactly the recognised types |
| Preload.Delivered | src/utils/preloader.js:70-76 | a delivered item is flagged loaded, keeps its type, id and url, holds the payload in its loader's slot (`object3d` for the JSON, GLTF and FBX loaders), and keeps every other slot |
| Preload.UntouchedKeepsFlag | src/utils/preloader.js:70-76 | an item no callback targets keeps its record |
| Preload.TouchedIsFlagged | src/utils/preloader.js:72 | an item some callback targeted is flagged loaded |
| Preload.UnknownTypeBlocksCompletion | src/utils/preloader.js:155-160 | an item of unrecognised type that is not already flagged keeps completion false whatever is delivered |
| Preload.CompletesOnLastCallback | src/utils/preloader.js:74-76 | with one request per unflagged item, completion holds after callback `j` exactly when it is the last one, so `onComplete` fires once |
| Preload.LoadCompletesOnLastCallback | src/utils/preloader.js:61-160 | for a manifest of recognised types, after `load` the callbacks of the requests `start` issued complete it exactly at the last one, so `onComplete` fires once |
| Preload.AllTouchedAllLoaded | src/utils/preloader.js:155-160 | when every item has had its callback, the manifest is complete |
| Preload.LastStillWaiting | src/utils/preloader.js:155-160 | before the last of distinct callbacks on unflagged items, the manifest is not complete |
| Preload.CompletionPersists | src/utils/preloader.js:69-147 | a delivery never clears a flag, so completion once reached persists |
| Preload.FirstWithId | src/utils/preloader.js:163-165 | `filter(...)[0]`: the first index with the id, or none iff no item has it |
| Preload.Lookup | src/utils/preloader.js:162-216 | a getter returns a payload iff the first item with the id has one in that slot, and then it returns that payload |
| Preload.LookupIgnoresShadowedIds | src/utils/preloader.js:163-165 | a later item with the same id is never returned |
| Preload.FirstWithIdKeepsIds | src/utils/preloader.js:163-165 | the first item with an id stays the same while no item's id changes |
| Preload.DeliveredIsReturned | src/utils/preloader.js:162-216 | after a callback delivers a payload to the first item with its id, the getter for that loader's slot returns it |
| Preload.RunBlock | src/utils/preloader.js:68-78 | one block's loop: the manifest with the type's flags cleared, and the block's requests in order |
| Preload.Preloader.constructor | src/utils/preloader.js:51-59 | no manifest and no requests |
| Preload.Preloader.Load | src/utils/preloader.js:61-65 | a missing or empty manifest changes nothing; otherwise the manifest is adopted and started |
| Preload.Preloader.StartKind | src/utils/preloader.js:68-78 | one block clears its items' flags, keeps every type, and appends its requests |
| Preload.Preloader.Start | src/utils/preloader.js:67-149 | the seven blocks in order: the started manifest and all their requests |
| Preload.Preloader.CheckManifestCompletion | src/utils/preloader.js:155-160 | true iff every item is flagged loaded |
| Preload.Preloader.OnLoaded | src/utils/preloader.js:70-76 | a callback updates only its own item (flag and the payload slot of its loader), then reports completion iff every item is loaded |
| Preload.Preloader.Get | src/utils/preloader.js:162-216 | a getter returns only a payload held in that slot by some item with the id, and nothing when no item has the id |

## Left out

- **Physics.** Cannon's world step, contacts and sleep detection are not modelled. The sleep event is the call to `OnBallAsleep`, and the ray hit is `ComputeCurrentWinner`'s input.
- **Graphics.** Meshes, materials, the disk and composer shaders, cameras, controls, DOM text, preact rendering, audio and GSAP timelines are not modelled. A tween's interpolated value is `TweenTick`'s input.
- **Trigonometry.** `cos`, `sin` and `atan2` are never evaluated. Poses are polar (radius, angle) pairs, and the `atan2` of the hit's uv is an input in [-PI, PI].
- **Mode-2 glow.** It takes `Math.sin` as a function parameter; only its phase, with the precedence quirk, is modelled.
- **Floating point is not modelled.** Finite numbers are exact reals, and `PI` is an abstract positive constant. The infinities and NaN appear only where the modelled code can reach them: `0/0`, division by zero in `mapRange`, and `undefined++`.
- **Randomness.** `Math.random`, lodash `shuffle` and `random-weighted-choice` are nondeterministic choices, not probability distributions.
- **PMREM shader.** The GGX and Phong importance sampling, `rand`, `matrixFromVector`, the unused `GGXRoughnessToBlinnExponent` and `CubeUVPacker` (not shown) are not modelled. Only the seam remap and the face table are.
- **HDR pixel conversion.** `RGBEByteToRGBFloat`, `RGBEByteToRGBHalf`, their pixel loops and the RGBE file parser are not modelled. The parse result is `OnFile`'s input, and `onProgress`/`onError` are left out.
- **File loading.** The preloader's loaders and their network requests are not modelled. A callback's payload is `OnLoaded`'s input.
- Pmrem.Generator.constructor: requires a power-of-two resolution. For other resolutions `Math.log(size) / Math.log(2) - 2` is fractional, and the model does not capture that.
- CheckIn.DrawSlots: requires at least one entry, and every entry must have a positive weight, which `addEntry` guarantees. A list with no pickable entry is not modelled.
- CheckIn.Form.AddEntry: names are sequences of Unicode scalar values, so a JavaScript string holding a lone surrogate cannot be represented; every other name is measured in UTF-16 code units, as `.length` does. The weight field's trimmed value is never read, so the model does not take it. The broken `this.setTimeout` in `showError`, which would throw after the error is shown, is not modelled; the error simply stays set.
- Preload.Preloader.Get: requires a manifest. Before any `load` the manifest is undefined and the getter throws, and the model excludes that call.
- Preload.Preloader.Load: a second `load` replaces the request log. Callbacks still in flight from an earlier load are not modelled.
- **Records are values.** Manifest records are immutable values, so aliasing between records handed out elsewhere is not modelled.
- Game.Application.RenderFrame: `updatePhysicalWorld`, the third registered render function, is left out with the physics.
- **Unused entry fields.** The demo entries' `srcAvatar`, `image`, `selected` and `color` are not modelled. The palette colours appear only as their index.
- **Other index.js code.** The intro animation, camera tweens, `showText`, the console statistics in `onBallAsleep`, the DEBUG GUI, resizing and the key/touch handlers that call `startGame` are not modelled.
- **`gcd`'s result.** `go` computes it and never uses it, so the model keeps the call and discards the value.
- src/assets.js is not part of this model. It is a one-item constant manifest built with `genCubeUrls`, which is not shown.

## Findings

| source | as written | input that shows it | evidently intended | confidence | as-written member | corrected member |
|---|---|---|---|---|---|---|
| src/Loaders/HDRCubeTextureLoader.js:63 | the overflow branch ORs in `((e == 255) ? 0 : 1) && (x & 0x7fffff)`, which is 0 for Inf and NaN alike, and the whole 23-bit mantissa for a finite overflow | the float32 NaN 0x7fc00000 converts to 0x7c00 (+Inf); the largest finite float32 0x7f7fffff converts to 0x7fffff, which does not fit in 16 bits, and the `Uint16Array` of lines 150-154 keeps 0xffff, a half NaN. The app itself requests only `UnsignedByteType` (src/utils/preloader.js:71), so it never reaches `toHalf` | a NaN keeps a mantissa bit and stays NaN, and a finite overflow gives signed Inf | not executed | HdrCube.ToHalf, HdrCube.ToHalfLosesNaN, HdrCube.ToHalfOverflowsSixteenBits, HdrCube.ToHalfStoredOverflowIsNaN | HdrCube.ToHalfIntended |
