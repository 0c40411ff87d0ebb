# Aura weather dashboard: model of the particle aura, favourites and unit toggle

This project models the three pieces of logic in the weather dashboard's `app.js`
that contain more than browser glue:

- **The aura particle pool.** This is the animated background. Twenty particles,
  each with a position, a size, a velocity, an opacity and a colour, drift across the
  canvas and wrap round its edges. They are recoloured from a per-condition palette
  whenever the weather condition changes.
  - `Palettes` holds the static colour table and the colour draw of `getColor`.
  - `Particles` holds the `Particle` class with its `reset` and `update`. It also holds
    the functions that specify them (`Spawn`, `Step`, `Wrap`) and the lemmas about
    those functions.
  - `Aura` holds `AuraEngine`. It owns the `auraMode`, the canvas size and the pool.
    Its constructor is the pool creation of `initAura`; `Frame` is one update pass of
    `animate`; `UpdateAura` is `updateAura`.
- **The favourites list.** This is a list of at most five distinct cities that evicts
  its oldest entry first. `Favorites` specifies `addToFavorites` (`WithFavorite`) and
  `removeFromFavorites` (`Without`) as functions on the stored list and proves their
  properties. `App.Dashboard` holds the stored list as a field, and its methods update
  it as the handlers do.
- **The unit toggle.** `App.Toggled` and `App.Dashboard.ToggleUnits` model it.

Each call to `Math.random()` becomes an explicit `real` parameter in [0, 1)
(`Palettes.IsDraw`). `reset` makes seven such draws (`Particles.Draws`). The
canvas size `els.auraCanvas.width/height` is the pair of `nat` fields
`AuraEngine.width` and `AuraEngine.height`. Positions are exact `real`s. Browser
storage under the key `favorites` is the `seq<string>` field `Dashboard.favorites`,
and an absent entry reads as `[]`, as both handlers treat it. `currentCity` is an
argument of `AddToFavorites`. Its writers are all outside the model: `init` restores it
from `lastCity` (app.js:39), the fetch and the search set it (app.js:73, 202), and a
favourite button's click sets it (app.js:230).

`updateAura` recolours every particle on every call, also when the condition is
unchanged (app.js:348-352). `UpdateAura` does the same, and
`Palettes.RecolorCanChangeColor` shows that a second recolour can change a colour.

## Model

| member | source | states |
|---|---|---|
| `Palettes.Palette` | app.js:287-297 | the active palette has two or three colours; a tag missing from the table gets the `default` colours `#ffffff`, `#888888` |
| `Palettes.FloorIndexInRange` | app.js:298 | for every draw r in [0,1) and length n > 0, `floor(r * n)` is an index in [0, n) |
| `Palettes.ColorFor` | app.js:286-299 | `getColor` returns a member of the active palette; for an unknown tag, a member of the `default` palette |
| `Palettes.EveryColorReachable` | app.js:298 | every colour of the active palette is drawn by some draw in [0,1), so the draw covers the whole palette |
| `Palettes.UnknownModeIsDefault` | app.js:297 | for an unknown tag, the same draw gives the same colour as for `default` |
| `Palettes.RecolorCanChangeColor` | app.js:348-352 | two draws for `Rain` can give different colours, so recolouring with the same condition is not a no-op |
| `Particles.Scaled` | app.js:278-279 | `Math.random() * extent` lies in [0, extent] and in [0, extent) when extent > 0 |
| `Particles.DrawnRanges` | app.js:280-283 | size in [50,200), both speeds in [-0.1,0.1), alpha in [0,0.1) for every draw in [0,1) |
| `Particles.Spawn` | app.js:277-285 | a freshly reset particle has size, speeds and alpha in their ranges, a colour of the active palette, and a position in [0,width) x [0,height) (0 on an empty axis) |
| `Particles.Wrap` | app.js:305-308 | one axis of wrap-around leaves the moved position, or puts it at the opposite edge: extent + size or -size |
| `Particles.Step` | app.js:300-309 | `update` changes only x and y; each becomes the moved coordinate or one of the two wrap edges of its axis |
| `Particles.WrapBounded` | app.js:305-308 | after wrap-around one coordinate lies in [-size, extent + size], wherever the particle was |
| `Particles.WrapCases` | app.js:305-308 | inside the band the position is kept; below -size it becomes extent + size; above extent + size it becomes -size |
| `Particles.StepOnSurface` | app.js:300-309 | after `update`, -size <= x <= width + size and -size <= y <= height + size, from any previous position |
| `Particles.StepKeepsAppearance` | app.js:300-309 | `update` changes only x and y; size, velocity, alpha and colour stay, so the reset ranges are kept |
| `Particles.StepMovesInside` | app.js:300-302 | a particle whose moved position is still inside the band just moves by its velocity |
| `Particles.WrapLowEdgeExample` | app.js:305 | width 100, size 50, x = -51, speedX = 0: one update sets x = 150 |
| `Particles.WrapHighEdgeExample` | app.js:306 | width 100, size 50, x = 151, speedX = 0: one update sets x = -50 |
| `Particles.Particle.constructor` | app.js:274-276 | a new particle is in the state that `reset` gives |
| `Particles.Particle.Reset` | app.js:277-285 | the fields become exactly `Spawn` of the canvas size, mode and draws |
| `Particles.Particle.Recolor` | app.js:351 | only the colour changes, to the `getColor` draw for the given mode |
| `Particles.Particle.Update` | app.js:300-309 | the fields become exactly `Step` of the old fields and the canvas size |
| `Aura.AuraEngine.constructor` | app.js:324-326 | the pool holds 20 distinct new particles, each one `Spawn` of its draws in mode `default`; all are inside the wrap band; the mode is `default` |
| `Aura.AuraEngine.Frame` | app.js:333-336 | every particle's new state is `Step` of its old state, in pool order; the pool keeps its 20 particles, their ranges and colours, and all end inside the wrap band |
| `Aura.AuraEngine.UpdateAura` | app.js:346-353 | the mode becomes the condition; every particle's colour is drawn from the new palette and no other field changes; the pool keeps its 20 particles |
| `Aura.AuraEngine.RecolorAll` | app.js:350-352 | every particle's colour becomes the draw for the current mode, in pool order, and nothing else changes |
| `Favorites.WithFavorite` | app.js:244-246 | after `addToFavorites` the city is in the list; the list grows by at most one, and not at all when a new city evicts the oldest of 5 or more |
| `Favorites.Without` | app.js:254 | after the filter the city occurs nowhere in the list, and the list is never longer than before |
| `Favorites.AddPresentIsNoOp` | app.js:244 | adding a city already in the list leaves the list unchanged |
| `Favorites.AddNew` | app.js:244-246 | a new city becomes the last entry; before it is the old list less its first entry when it had 5 or more, otherwise the whole old list |
| `Favorites.AddMembership` | app.js:244-246 | after an add the city is in the list, and every other entry was in the old list |
| `Favorites.AddKeepsBound` | app.js:245-246 | a list of at most 5 entries stays at most 5 |
| `Favorites.AddKeepsNoDuplicates` | app.js:244-246 | a duplicate-free list stays duplicate-free |
| `Favorites.AddKeepsWellFormed` | app.js:244-246 | a list of at most 5 distinct cities is still one after an add |
| `Favorites.WithoutContents` | app.js:254 | the filtered list has every other city with its old multiplicity and no occurrence of the removed city |
| `Favorites.WithoutMembership` | app.js:254 | a city is in the filtered list exactly when it was in the list and is not the removed city |
| `Favorites.WithoutAppend` | app.js:254 | filtering distributes over concatenation, so the remaining cities keep their order |
| `Favorites.WithoutAbsent` | app.js:254 | removing a city not in the list leaves it unchanged |
| `Favorites.WithoutIdempotent` | app.js:254 | removing a city twice is the same as removing it once |
| `Favorites.WithoutKeepsNoDuplicates` | app.js:254 | filtering keeps a duplicate-free list duplicate-free and never makes it longer |
| `Favorites.WithoutKeepsWellFormed` | app.js:254 | filtering keeps a short, duplicate-free list short and duplicate-free |
| `Favorites.RemoveUndoesAdd` | app.js:244-254 | removing a city just added to a list of fewer than 5 gives the old list back |
| `App.Toggled` | app.js:181 | the result is `metric` or `imperial`, and it is `imperial` exactly when the old unit was `metric` |
| `App.ToggleTwice` | app.js:181 | toggling `metric` or `imperial` twice returns it |
| `App.Dashboard.constructor` | app.js:9 | the unit starts as `metric`; the favourites are what storage holds |
| `App.Dashboard.ToggleUnits` | app.js:180-183 | the stored unit becomes `Toggled` of the old unit |
| `App.Dashboard.AddToFavorites` | app.js:242-250 | the stored list becomes `WithFavorite` of the old list and the current city, which is then in the list; a well-formed list stays well formed |
| `App.Dashboard.RemoveFromFavorites` | app.js:252-257 | the stored list becomes `Without` of the old list and the city, which is then absent; a well-formed list stays well formed |

## Left out

- Network calls (`fetchWeather`, `handleSearch`, app.js:61-88 and 185-210) are I/O. So is the weather refetch at the end of `toggleUnits`.
- DOM and canvas drawing are browser APIs outside the model. This covers `renderApp`, `renderCurrent`, `renderHourly`, `renderDaily`, `renderFavorites`' buttons, and `Particle.draw` with its gradient, `globalAlpha`, `arc` and the `screen` blend.
- The endless `requestAnimationFrame` loop of `animate`, and `animateValue`, are timing. Only one frame's update pass is modelled (`Frame`).
- The 500 ms search debounce, the blur timeout and `Date` formatting are timing and formatting.
- `simulateData` only builds demonstration data.
- `resize` (app.js:266-269) copies the window size onto the canvas. `width` and `height` are fields, set by the constructor. No operation of the model changes them; `Frame` uses their current values.
- `init` reads `lastCity` from storage. `currentCity` is written by `init`, the fetch, the search and the favourite buttons (app.js:39, 73, 202, 230), all outside the model; it is an argument here.
- The three default favourites shown by `renderFavorites` when storage is empty (app.js:213) are left out. Only the list that the add and remove handlers read and write is modelled, where an absent entry is `[]`.
- `JSON.parse` of a corrupted or non-array storage value (which throws or yields a non-list) is left out. The stored value is always a list of strings.
- The colour table is a JavaScript object literal. A condition such as `constructor` or `__proto__` would find an inherited property instead of falling back to `default`. The model treats every tag outside the eight keys as unknown.
- Floating point: positions, sizes and draws are exact reals. IEEE rounding at the edge of a range is not modelled: for the draw 0, `(0 - 0.5) * 0.2` is the double nearest -0.1, which lies slightly below the real -0.1 that `InRanges` compares against.
