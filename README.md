# Hero constellation and typewriter of script.js

This project models the two pieces of the page script `script.js` that
carry real logic, and proves properties of each.

- **The typewriter** (`type()`). Three closure variables (`phraseIndex`,
  `letterIndex`, `isDeleting`) cycle through "Engineer", "Innovator" and
  "Creator". Each call shows the next prefix of the current phrase and picks
  the delay before the next call:
  - 200 ms while typing;
  - 2000 ms once the phrase is complete;
  - 100 ms while erasing;
  - 500 ms once the text is empty.

  Module `Typing` holds the pure step function `Next`, its iteration `Run`,
  and the class `Typewriter`. `Typewriter.Type` updates the fields in place
  and is proved equal to `Next`.
- **The constellation** (`Particle`, `initParticles()`, `animate()`).
  - Module `Particles` holds the `Particle` class with its six fields, its
    constructor and `update()`. `update()` drifts the particle, pushes it
    away from a pointer closer than 100 px, and wraps it at the canvas
    edges.
  - Module `Constellation` holds the closure state as the class `Field`:
    - the canvas size, the pointer and the particle array;
    - the resize and mouse-move handlers;
    - `initParticles()`;
    - one frame of `animate()`. The frame updates each particle in place
      and, right after updating particle `i`, tests it against every
      particle `j >= i`. It returns the lines it would draw, in drawing
      order.

  The pure specification of a frame is `AdvanceAll` for the new positions
  and `Connections` for the lines.

Positions are `real`s. `Math.sqrt(d2) < 100` is decided as `d2 < 10000`;
`WithinRadius` proves that the two tests agree. Each `Math.random()` draw is
an input in [0, 1) (the `Rolls` datatype). Canvas sizes are `nat`s.

Two details of the code that the model follows exactly:

- **Wrap.** The code tests `x > width` and then `x < 0`. A particle at
  exactly `x == width` therefore stays there, and one below 0 lands on
  `width`. Positions lie in the closed range [0, width], not the half-open
  [0, width) (`Wrap`, `AdvanceStaysInCanvas`, `WrapKeepsFarEdge`).
- **Which positions the connection pass compares.** The pass runs inside
  the update loop. For a pair `(i, j)` with `j > i` it compares particle
  `i`'s new position with particle `j`'s position from the previous frame
  (`Seen`). The pass also tests the self-pair `(i, i)`, which always draws
  a zero-length line at alpha 0.1 (`SelfPairsDrawn`).

## Model

| member | source | states |
|---|---|---|
| Typing.Clamp | script.js:188-191 | the clamped index lies in [0, n] and is the index itself when already in range |
| Typing.Substring | script.js:188-191 | `substring` never lengthens the string; with bounds in order and in range it is the slice; from 0 it is the prefix up to the clamped end |
| Typing.Next | script.js:184-207 | one call of `type()` always leaves `phraseIndex` selecting one of the three phrases |
| Typing.Run | script.js:206 | any number of rescheduled calls keeps `phraseIndex` in range |
| Typing.Inv | script.js:180-204 | no contract of its own: the states reachable from script.js:180-182 (a phrase selected; while typing `0 <= letterIndex < L`, while erasing `0 < letterIndex <= L`). `Typewriter.constructor` establishes it, and `NextKeepsInv` and `RunKeepsInv` show that calls keep it |
| Typing.NextKeepsInv | script.js:185-204 | from a reachable state one call reaches a reachable state; `letterIndex` stays within the phrase; the text shown is exactly the prefix of length `letterIndex`, empty when it reaches 0 |
| Typing.DelayRules | script.js:195-204 | 2000 ms exactly when typing completes the phrase (and erasing starts), 500 ms exactly when erasing empties it (and typing restarts), otherwise 200 ms while typing and 100 ms while erasing, each as an if-and-only-if |
| Typing.PhraseAdvance | script.js:197-203 | the phrase changes if and only if erasing removes the last letter, and then moves to the next phrase modulo 3 with typing restarting from 0 |
| Typing.RunKeepsInv | script.js:180-206 | the reachable-state invariant holds after any number of calls |
| Typing.RunLast | script.js:206 | `n + 1` calls are `n` calls followed by one more |
| Typing.RunAdd | script.js:206 | `a + b` calls are `a` calls followed by `b` calls |
| Typing.TypingPhase | script.js:190-199 | the first `L` calls on a phrase of length `L` type it one letter per call, and the `L`-th switches to erasing |
| Typing.ErasingPhase | script.js:187-203 | the next `L` calls erase it one letter per call, and the last one starts the next phrase |
| Typing.CycleAt | script.js:184-204 | the exact state after any `k <= 2L` calls from the start of a phrase |
| Typing.CycleLength | script.js:184-204 | each phrase takes exactly `2L` calls: the phrase index is unchanged before that and has moved to the next phrase after it |
| Typing.CycleSchedule | script.js:187-204 | the text and delay of the `k`-th call on a phrase: growing prefixes at 200 ms, the full phrase at 2000 ms, shrinking prefixes at 100 ms, the empty text at 500 ms |
| Typing.PhaseDone | script.js:197-203 | the `2L` calls on a phrase end at the start of the next phrase |
| Typing.RunChain | script.js:206 | three runs chained end to end are one run of the summed length |
| Typing.ThreePhases | script.js:179-204 | three consecutive phrases, each taking its `2L` calls, bring the typewriter back to the first |
| Typing.FullRotation | script.js:179-204 | from the start of any phrase, 48 calls (2 × (8 + 9 + 7)) return the typewriter to exactly the same state |
| Typing.Typewriter.constructor | script.js:180-182 | the typewriter starts on "Engineer", at letter 0, typing, in a reachable state |
| Typing.Typewriter.Type | script.js:184-207 | one call updates the three variables, the text and the delay exactly as the step function says, and keeps the reachable-state invariant |
| Particles.DistSq | script.js:76-78 | the squared distance is never negative and is zero between a point and itself |
| Particles.WithinRadius | script.js:78-79 | for `d >= 0` with `d * d == dsq`, `d < 100` holds if and only if `dsq < 10000` |
| Particles.Scale | script.js:62-63 | `Math.random() * n` lies in [0, n], strictly below `n` when `n > 0` |
| Particles.Spawn | script.js:61-68 | a new particle lies on the canvas, has size in [0.5, 2.5), speeds in [-0.1, 0.1) and opacity in [0.2, 0.7) |
| Particles.Repels | script.js:75-79 | no contract of its own: the pointer is present and closer than 100 px (the squared-distance form of the `distance < 100` test, see `WithinRadius`). `Repel` and `RepelPushesAway` state its consequences |
| Particles.Repel | script.js:75-83 | without a pointer closer than 100 px the position is unchanged |
| Particles.RepelPushesAway | script.js:75-83 | the push points away from the pointer, stretches the distance to it by 2% (its square by 1.0404) when it applies, never brings the particle closer, and leaves a particle exactly at the pointer in place |
| Particles.Wrap | script.js:85-88 | the wrapped coordinate lies in [0, bound]; values in range are kept, values below 0 go to the bound, values above it go to 0 |
| Particles.Advance | script.js:70-89 | no contract of its own: the reference definition of `update()` (drift, push, wrap each axis). `AdvanceStaysInCanvas`, `AdvanceDriftOnly`, `WrapKeepsFarEdge`, `WrapScenario` and `PointerOnParticleScenario` carry its properties, and `Particle.Update` is proved equal to it |
| Particles.AdvanceStaysInCanvas | script.js:70-89 | after `update()` the particle lies in the closed canvas rectangle from any start, and its speeds, size and opacity are unchanged |
| Particles.AdvanceDriftOnly | script.js:71-72 | with no pointer in range and the drifted position on the canvas, the particle moves by its velocity alone |
| Particles.WrapKeepsFarEdge | script.js:85-86 | a particle landing exactly on the far edge stays there, and one going below 0 lands on it |
| Particles.WrapScenario | script.js:71-85 | x = 99.95 with speed 0.1 on a 100 px canvas reaches 100.05 and reappears at x = 0 |
| Particles.PointerOnParticleScenario | script.js:74-83 | a motionless particle exactly under the pointer does not move |
| Particles.Particle.constructor | script.js:61-69 | the six fields are those of `Spawn` for the given draws and canvas size |
| Particles.Particle.Update | script.js:70-89 | the particle advances exactly as `Advance` says, only the position is written, and it ends inside the closed canvas |
| Constellation.StrokeAlpha | script.js:121 | a drawn line's alpha lies in (0, 0.1] |
| Constellation.StrokeAlphaDecreasing | script.js:121 | the alpha strictly decreases as the line grows |
| Constellation.StrokeAlphaScenario | script.js:121 | lines of length 0 and 50 get alpha 0.1 and 0.05 |
| Constellation.AdvanceAll | script.js:109-110 | a frame advances every particle by `Advance` and keeps their number |
| Constellation.AllAdvancedUnique | script.js:109-110 | proof helper for `Field.Animate`: describing a frame's updates particle by particle determines the sequence `AdvanceAll` gives, which lets the loop avoid unfolding `Advance` |
| Constellation.Seen | script.js:114-117 | no contract of its own: where the pass sees particle `j` during row `i` (new position for `j <= i`, previous frame's for `j > i`). `ConnectRow` is proved to read exactly these positions |
| Constellation.Probe | script.js:115-126 | no contract of its own: the line (if any) the inner loop draws for one pair. `RowMembers` and `RowComplete` characterise it |
| Constellation.Row | script.js:114-127 | no contract of its own: the lines of row `i` up to `j`. `RowMembers`, `RowComplete` and `RowOrder` carry its properties, and `Field.ConnectRow` is proved equal to it |
| Constellation.Pass | script.js:109-128 | no contract of its own: the lines of the first `i` rows. `PassMembers`, `PassComplete` and `PassOrder` carry its properties, and it is `Field.Animate`'s loop invariant |
| Constellation.Connections | script.js:107-130 | no contract of its own: the lines of a whole frame. `ConnectionsSpec`, `SelfPairsDrawn` and `LinkAlpha` carry its properties, and `Field.Animate` is proved to return it |
| Constellation.Line | script.js:123-124 | no contract of its own: the line for pair `(i, j)`, from particle `i`'s new position to where the pass sees `j`. `ConnectionsSpec` names each drawn line with it |
| Constellation.PassStep | script.js:109-127 | proof helper for `Field.Animate`'s loop invariant: one more outer iteration appends row `i` to the lines drawn so far |
| Constellation.RowMembers | script.js:114-127 | row `i` holds only lines for close pairs `(i, k)` with `k >= i`, each joining the positions compared |
| Constellation.RowComplete | script.js:114-127 | row `i` holds the line of every close pair `(i, k)` with `k >= i` |
| Constellation.RowOrder | script.js:114 | a row's lines come in strictly increasing `j` |
| Constellation.PassMembers | script.js:109-127 | the rows before `i` hold only lines for close pairs `(r, k)` with `r <= k` |
| Constellation.PassComplete | script.js:109-127 | the rows before `i` hold the line of every close pair `(r, k)` with `r <= k` |
| Constellation.PassOrder | script.js:109-114 | the lines come in row-major order |
| Constellation.ConnectionsSpec | script.js:109-127 | a frame draws a line for `(i, j)` if and only if `i <= j` and the compared positions are closer than 100 px; the line joins those positions; each pair is drawn at most once, in row-major order |
| Constellation.SelfPairsDrawn | script.js:114-119 | every particle is joined to itself by a zero-length line |
| Constellation.LinkAlpha | script.js:117-121 | every drawn line is shorter than 100 px and gets an alpha in (0, 0.1] |
| Constellation.TwoParticleScenario | script.js:109-125 | two resting particles 50 px apart stay put and are joined by a line 50 px long |
| Constellation.Field.States | script.js:35 | the snapshot has one entry per particle, the `k`-th being particle `k`'s fields |
| Constellation.Field.constructor | script.js:34-57 | page load: the canvas takes the window size, there is no pointer and no particle |
| Constellation.Field.Resize | script.js:51-54 | the canvas takes the new window size, and nothing else changes |
| Constellation.Field.PointerMove | script.js:43-48 | the pointer becomes present at the event position |
| Constellation.Field.InitParticles | script.js:99-104 | exactly 150 fresh, distinct particles, the `k`-th built from the `k`-th draws at the current canvas size |
| Constellation.Field.Animate | script.js:107-130 | one frame moves every particle exactly as `AdvanceAll` says and returns exactly the lines of `Connections`, in drawing order |
| Constellation.Field.Step | script.js:109-127 | one outer iteration updates particle `i` alone and returns row `i` of the pass |
| Constellation.Field.ConnectRow | script.js:114-127 | the inner loop returns exactly row `i` of the pass, comparing with the positions as they stand mid-frame |

## Left out

- Drawing is not modelled: `draw()`, `clearRect`, the stroke style, `moveTo`/`lineTo` and `stroke`. A frame returns the lines it would draw (`Link`), and their alpha is `StrokeAlpha`.
- `requestAnimationFrame` and `setTimeout` are left out. `Field.Animate` is one frame, and `Typewriter.Type` returns the delay it would schedule.
- `Math.random()` is an input (`Rolls`), each draw constrained to [0, 1).
- `Math.sqrt` and floating-point rounding are not modelled. Coordinates are exact reals, and the `< 100` tests are made on squared distances, which `WithinRadius` shows is equivalent.
- `window.innerWidth`/`innerHeight` and the mouse event's `e.x`/`e.y` become parameters. The canvas element, its 2-D context and `textContent` are not modelled.
- The configuration constants `particleCount = 60`, `connectionDistance = 150` and `mouseDistance = 200` are never read by the code. The model uses the values the code does use: 150 particles and a 100 px radius.
- The `typeTarget` presence check is left out: the typewriter is modelled as present.
- The navigation, scroll reveal, parallax, card tilt, magnetic button and the script's other DOM effects are not part of this model.
- Typing.Typewriter.Type: requires the reachable-state invariant (`Valid`). The code accepts any `letterIndex` and `isDeleting` with a `phraseIndex` in 0..2 (with any other `phraseIndex`, `phrases[phraseIndex]` is `undefined` and `substring` throws), but only the states in `Valid` are reachable from script.js:180-182, and `Type` keeps them.
- Constellation.StrokeAlpha: requires `0 <= d < 100`, the only lengths for which the code computes an alpha.
- Constellation.Field.Animate: requires the particles to be distinct objects (`Valid`), which `InitParticles` establishes. Aliasing between array slots is not modelled.
