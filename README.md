# TMS dashboard: rating arithmetic and view state

A model of the logic inside the trip-management dashboard screen
(`src/TMSDashboard.jsx`):

- **`computeStarRating`** turns the on-time and late trip counters into a star
  rating. It returns 0 when the total is non-finite, negative or zero, and
  otherwise `Math.round(ontime / total * 5)`.
- **`ontimePct` / `latePct`** is the percentage split shown under the stars.
  The on-time share is `Math.round(ontime / total * 100)` when the total is
  truthy. The late share is `100 - ontimePct`. Both are 0 when the total is
  falsy.
- **The star row** draws five icons, and icon `i` is filled when `i < rating`.
- **The screen's state**: the `attendance` list that Clock In and Clock Out
  append to, the single `expandedTrip` slot toggled by the sidebar cards, the
  `currentPage` (home or absensi) and the `showPodMenu` flag. These are all
  set by the button handlers.

Three modules:

- `JsNumber` (`jsnumber.dfy`) holds the JavaScript numbers a trip counter can
  be: an integer, NaN or an infinity. It gives `+`, unary `-`,
  `Number.isFinite` and truthiness on them.
- `Rating` (`rating.dfy`) holds the pure arithmetic. `Math.round(n / d)` is
  computed exactly as `(2n + d) div 2d` for a positive `d`. This rounds halves
  toward +Infinity, as `Math.round` does. The predicate `RoundsTo` states
  independently what the rounding means.
- `Dashboard` (`dashboard.dfy`) holds a class whose fields are the component's
  four state variables. Its methods are the onClick handlers, and its `View`
  function says what the screen shows in a given state.

The code has no clamp and does no input clamping; its guards and rounding are these:

- There is no clamp of the star rating to [0, 5]. `computeStarRating(6, -1)`
  is 6 (`StarRatingUnclamped`).
- Negative counters are not clamped to 0 before the ratio is taken.
- The percentage guard is JavaScript truthiness, not `total > 0`. A negative
  total is divided by.
- The star rating rounds half-up: (1, 1) gives 3 stars.

## Model

| member | source | states |
|---|---|---|
| JsNumber.Add | src/TMSDashboard.jsx:18 | `ontime + late` is finite exactly when both operands are, and is then their sum; it is NaN exactly when an operand is NaN or the operands are opposite infinities |
| JsNumber.Negate | src/TMSDashboard.jsx:55 | the negation used by `100 - ontimePct` keeps finiteness and NaN-ness and negates a finite value |
| Rating.RoundHalfUp | src/TMSDashboard.jsx:22 | for a positive divisor the result `r` satisfies r - 1/2 <= n/d < r + 1/2, i.e. it is `Math.round(n / d)` |
| Rating.Round | src/TMSDashboard.jsx:53 | for a divisor of either sign the result is `Math.round(n / d)`; a negative divisor is handled as (-n)/(-d) |
| Rating.RoundsToUnique | src/TMSDashboard.jsx:22 | at most one integer satisfies the rounding condition, so the condition determines `Math.round`'s result |
| Rating.RoundBounds | src/TMSDashboard.jsx:21-22 | when 0 <= n/d <= k the rounded value lies in [0, k]; it is 0 for n = 0 and k for n/d = k |
| Rating.StarRating | src/TMSDashboard.jsx:17-23 | the rating is 0 when the total is non-finite, negative or zero; otherwise it is the round-half-up of 5 * ontime / total |
| Rating.StarRatingBounds | src/TMSDashboard.jsx:17-23 | for non-negative integer counters with a positive total the rating lies in [0, 5]; no on-time trips give 0 stars and no late trips give 5 |
| Rating.StarRatingUnclamped | src/TMSDashboard.jsx:17-23 | there is no clamp: (6, -1) gives 6 stars and (-1, 3) gives -2 |
| Rating.OntimePct | src/TMSDashboard.jsx:51-54 | `ontimePct` is never infinite; for a positive finite total it is the round-half-up of 100 * ontime / total |
| Rating.LatePct | src/TMSDashboard.jsx:55 | `latePct` is never infinite |
| Rating.PercentagesWithoutTrips | src/TMSDashboard.jsx:51-55 | when the total is 0 or NaN both percentages are 0 |
| Rating.PercentagesSumTo100 | src/TMSDashboard.jsx:51-55 | for integer counters with a non-zero total both percentages are finite and sum to exactly 100 |
| Rating.PercentagesBounds | src/TMSDashboard.jsx:51-55 | for non-negative counters with a positive total the on-time share is round-half-up of 100 * ontime / total; both shares lie in [0, 100]; all on time gives 100/0 and none on time gives 0/100 |
| Rating.SampleFigures | src/TMSDashboard.jsx:26-55 | the sample counters 55/4 give 5 stars, 93% on time and 7% late; 1/1 gives 3 stars and 50%/50% |
| Rating.Marks | src/TMSDashboard.jsx:140-149 | the star row has one icon per position, and its filled icons form a prefix: no empty star comes before a filled one |
| Rating.FilledMarks | src/TMSDashboard.jsx:140-149 | a row of `n` icons has `rating` filled ones, cut off at 0 and at `n` |
| Rating.FilledStarsMatchRating | src/TMSDashboard.jsx:140-149 | the number of filled stars among the five equals the rating when it is in [0, 5]; above 5 all five are filled and below 0 none is |
| Rating.DrawnStarsShowRating | src/TMSDashboard.jsx:140-149 | for non-negative counters with a positive total the filled stars equal the computed rating |
| Dashboard.ToggleExpands | src/TMSDashboard.jsx:231-232 | after a click on a card that card is expanded exactly when it was not expanded before; otherwise the slot is empty |
| Dashboard.ToggleTwice | src/TMSDashboard.jsx:231-232 | two clicks on the same card restore the slot exactly when it was empty or held that card; from another expanded card they leave it empty |
| Dashboard.Dashboard.constructor | src/TMSDashboard.jsx:45-49 | a fresh screen is on the home page with the POD submenu closed, no attendance records and no expanded card |
| Dashboard.Dashboard.View | src/TMSDashboard.jsx:128-387 | the home body is shown exactly on the home page and the attendance body exactly on the Absensi page, never both; the sidebar is shown exactly on the home page, and there the expanded card's detail panel is open; the attendance list is the log in order on the Absensi page and empty elsewhere; the POD submenu shows iff `showPodMenu` |
| Dashboard.Dashboard.HandleClockIn | src/TMSDashboard.jsx:64-69 | the log grows by exactly one "Clock In" record with the given time at its end; earlier records and all other state are unchanged |
| Dashboard.Dashboard.HandleClockOut | src/TMSDashboard.jsx:71-76 | the log grows by exactly one "Clock Out" record with the given time at its end; earlier records and all other state are unchanged |
| Dashboard.Dashboard.ClickCard | src/TMSDashboard.jsx:230-308 | the slot becomes the clicked card if it was not expanded and empty if it was; nothing else changes |
| Dashboard.Dashboard.ClickPod | src/TMSDashboard.jsx:320-328 | the POD submenu flag flips; the page and everything else stay as they were |
| Dashboard.Dashboard.ClickHome | src/TMSDashboard.jsx:330-343 | the page becomes home, the sidebar is shown and the POD submenu is closed; the log and the expanded card are kept |
| Dashboard.Dashboard.ClickAbsensi | src/TMSDashboard.jsx:350-363 | the page becomes absensi, the sidebar is hidden, the log is shown and the POD submenu is closed; the log and the expanded card are kept |
| Dashboard.ClockInThenOut | src/TMSDashboard.jsx:64-76 | clocking in at t1 and out at t2 on the attendance page shows exactly those two records, in that order |
| Dashboard.CardSurvivesNavigation | src/TMSDashboard.jsx:227-354 | an expanded card stays expanded across a visit to the attendance page, and the next click on it collapses it |

## Left out

- `src/App.jsx` only makes Capacitor `StatusBar` calls (foreign platform code). It is not part of this model.
- The JSX layout, Tailwind class strings, icons and the Google Maps iframe are presentation and an external embed.
- The date and time text from `toLocaleDateString` / `toLocaleTimeString` is not modelled. The clock handlers take the time text as a parameter.
- Floating-point rounding of `ratio * 5` and `ratio * 100` is not modelled. The ratio is taken as an exact rational, so a product that lands a hair below a .5 boundary in IEEE-754 arithmetic is not reproduced.
- Finite counters are integers. Fractional counters, integers beyond 2^53 and sums that overflow to Infinity are not represented.
- The `logoOk` / `avatarOk` image fallbacks, the `useMemo` caching and the hard-coded sample `data` are rendering concerns. The sample counters appear only in `SampleFigures`.
- The Complain, History and Pendapatan buttons have no handlers, so they change no state.
- The `View` screen covers only the state-dependent parts of the screen. The header, the map and the POD counters are fixed content.
- Rating.LatePct: its own contract says only that the value is never infinite. The sum, the bounds and the zero-total behaviour are stated by `PercentagesSumTo100`, `PercentagesBounds` and `PercentagesWithoutTrips`.
