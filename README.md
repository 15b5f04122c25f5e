# Blobscape lava lamp — a Dafny model of its screen logic

Blobscape is a "virtual lava lamp". The user goes from a landing screen to a
colour-wheel picker and then to an animated lamp of rising, colour-drifting
blobs. This project models the logic behind `src/app/page.tsx`, which is
everything except the rendering:

- **Hues** (`hues.dfy`): JavaScript's `x % 360` on numbers, written exactly
  on Dafny `real`s as the truncating remainder. It also holds the
  normalisation `(deg + 360) % 360` of a clicked colour-wheel angle and
  `generateAnalogousColors`, the five-hue palette base, +30, −30, +15 and −15
  degrees. "Differs by a whole number of turns" is the predicate
  `WholeTurns`, and the proofs about hues are built on it.
- **Blobs** (`blobs.dfy`): the `Blob` record and `generateBlobs`. Random
  numbers come in as a sequence of draws, five per blob, taken in the order
  the source calls `Math.random()`: x, size, duration, saturation, lightness.
  This module also has the per-tick hue drift `(hue + 0.1) % 360` and its
  `n`-fold iteration.
- **Screens** (`screens.dfy`): the `Home` component's state as a class
  (`appState`, `selectedHue`, `blobs`, `isTransitioning`) with one method per
  callback. Each `setTimeout` that an action starts is recorded in `pending`,
  and `Commit` is that timer firing. The `setInterval` body is `Tick`. The
  source has no guard against starting a second fade during the first, so
  neither does the model. Two fades can be in flight at once, and the first
  commit clears `isTransitioning` while the second is still pending.

The arithmetic is exact. In the source, hues, positions and delays are IEEE
doubles, so equalities such as "after `n` ticks the hue is
`(hue + 0.1·n) % 360`" hold exactly here and only up to rounding there.

Two behaviours of the source that are easy to miss:

- Leaving the lamp screen does not discard the blob batch. `goToPicker` only
  schedules the screen change, and the blobs stay in place until the next
  `startLamp` replaces them. They stop drifting because the interval runs
  only while `appState` is `lamp`.
- The actions do not check which screen is showing. Only the buttons each
  screen renders limit which actions a user can trigger, so the methods have
  no precondition on `appState`.

## Model

| member | source | states |
|---|---|---|
| `Hues.Rem360` | src/app/page.tsx:25-28 | JS `% 360`: the result has the sign of the operand, lies in [0,360) for a non-negative operand and in (−360,0] for a non-positive one, differs from the operand by whole turns, and leaves an operand in (−360,360) unchanged |
| `Hues.Rem360Canonical` | src/app/page.tsx:101 | on a non-negative operand, `% 360` gives the unique hue in [0,360) that is a whole number of turns away from it |
| `Hues.NormalizeAngle` | src/app/page.tsx:66 | `(deg + 360) % 360` lies in [0,360) for any deg > −360 and is a whole number of turns from deg; a negative angle becomes deg + 360 and an angle in [0,360) is kept |
| `Hues.AnalogousColors` | src/app/page.tsx:22-29 | the palette has exactly five entries, the first is the base hue itself, and all five lie in [0,360) when the base does |
| `Hues.PaletteEntries` | src/app/page.tsx:22-29 | for a base hue in [0,360), entry k is the hue of base + [0, 30, −30, 15, −15][k]; adding 360 before `%` on the subtracted entries yields the same hue as a true modulo |
| `Hues.PaletteDistinct` | src/app/page.tsx:22-29 | for a base hue in [0,360) the five palette hues are pairwise different |
| `Hues.PaletteOf30` | src/app/page.tsx:22-29 | base hue 30 gives exactly [30, 60, 0, 45, 15], in that order |
| `Blobs.StaggerDelay` | src/app/page.tsx:40 | the delay `(i / count) * -10` of blob i < count lies in (−10, 0] and is 0 for the first blob |
| `Blobs.StaggerDelayOrder` | src/app/page.tsx:40 | later blobs start strictly earlier, and consecutive blobs are exactly 10 / count seconds apart |
| `Blobs.GenerateBlobs` | src/app/page.tsx:32-45 | a batch of `count` blobs, and blob i has id i |
| `Blobs.BatchHues` | src/app/page.tsx:33-41 | blob i has hue palette[i % 5], so every hue of the batch is a palette hue; a batch of five or more uses every palette hue |
| `Blobs.BatchDelays` | src/app/page.tsx:40 | blob i has delay −10·(i / count), in (−10, 0]; blob 0 has delay 0; delays strictly decrease with i, in equal steps of 10 / count |
| `Blobs.BatchWellFormed` | src/app/page.tsx:37-43 | with draws in [0,1) and a base hue in [0,360): x in [15,85), size in [80,180), duration in [10,18), saturation in [70,90), lightness in [45,60), hue in [0,360), delay in (−10,0] |
| `Blobs.Drift` | src/app/page.tsx:99-102 | one tick changes only the hue; the new hue is a whole number of turns from hue + 0.1, stays in [0,360) for a non-negative hue, and a well-formed blob stays well-formed |
| `Blobs.DriftAll` | src/app/page.tsx:99-102 | a tick keeps the batch length, order and every field except hue, moves each hue by 0.1 modulo whole turns, and keeps every well-formed blob well-formed |
| `Blobs.DriftTimesHue` | src/app/page.tsx:96-106 | after n ticks a blob whose hue started in [0,360) has hue `(hue + 0.1·n) % 360`, with all other fields and the batch length unchanged |
| `Screens.Home.constructor` | src/app/page.tsx:48-51 | the initial state is the landing screen with hue 30, no blobs, no fade and no timer pending |
| `Screens.Home.SelectHue` | src/app/page.tsx:54-69 | a click at clockwise angle deg in [−180,180] sets the selected hue to `(deg + 360) % 360`, which lies in [0,360) |
| `Screens.Home.GoToPicker` | src/app/page.tsx:80-86 | sets the fade flag and schedules a commit to the picker after any commits already pending |
| `Screens.Home.ResetToLanding` | src/app/page.tsx:88-94 | sets the fade flag and schedules a commit to the landing screen after any commits already pending |
| `Screens.Home.StartLamp` | src/app/page.tsx:71-78 | sets the fade flag, at once replaces the blobs with a fresh batch of 12 from the selected hue (all well-formed), and schedules a commit to the lamp |
| `Screens.Home.Commit` | src/app/page.tsx:74-93 | any of the three timer callbacks (lines 74-77, 82-85, 90-93): the oldest scheduled fade fires: its target becomes the current screen, the fade flag clears, and that timer leaves the queue |
| `Screens.Home.BeginTransition` | src/app/page.tsx:80-94 | the shared start of every fade: sets the fade flag and appends the target screen to the pending timers, leaving screen, hue and blobs unchanged |
| `Screens.Home.FadeHasPendingCommit` | src/app/page.tsx:71-94 | the fade flag is only set together with a started timer and only cleared by one firing, so while a fade shows a commit is always still to come |
| `Screens.Home.Tick` | src/app/page.tsx:96-106 | while the lamp shows, every blob drifts by one tick and stays well-formed; on other screens the blobs are untouched |

## Left out

- Rendering: the JSX, class names, CSS and `hslToString` (`src/app/page.tsx:18-20`, `108-264`) only present the state.
- `Screens.Home.SelectHue`: the mapping from click position to angle (`getBoundingClientRect`, `Math.atan2`, conversion to degrees) is floating-point library work and becomes the input `deg`, assumed in atan2's range [−180,180]. The guard for an unmeasured colour wheel (line 55) is DOM plumbing and is not modelled.
- `Screens.Home.StartLamp`: `Math.random()` becomes the `draws` parameter. It requires 60 draws in [0,1), which is what `Math.random()` guarantees. Without that the blobs' range invariant could not be kept.
- `Blobs.GenerateBlobs`: `count` is a natural number. JavaScript's coercion of a negative or fractional `length` in `Array.from` is not modelled, and the source only ever calls it with the default 12.
- Timing: the 500 ms and 100 ms delays, and the clearing of the interval when the lamp is left, become the explicit steps `Commit` and `Tick`. Real-time interleavings beyond that order are not modelled.
- IEEE-754 rounding: every number is an exact real, so the drift and delay equalities hold exactly in the model and only approximately in the source.
- `src/app/layout.tsx` (fonts, metadata, HTML wrapper) is not part of this model.
