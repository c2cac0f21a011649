# Portfolio page behaviour, modelled in Dafny

This project models the logic inside `script.js`, the browser script of a
personal portfolio page. It covers four parts of that script:

- **Particle background** (`particles.dfy`, module `Particles`). A
  `ParticleSystem` holds 80 particles and the canvas size. `Init` rebuilds the
  particle list from random draws, which are passed in as values in [0, 1).
  `Animate` moves each particle in place by its velocity and applies the
  hard-reset wrap-around. It then joins every pair i < j that is closer than
  150 with a fading line. A frame is the list of shapes it would draw. Each
  line record carries the pair's indices and their squared distance. Distances
  are compared through their squares, so no square root is needed. The line's
  alpha, 0.15 · (1 − d/150), is `Alpha(d)` of the true distance d, and the
  lemmas tie d to the record by `d * d == dist2`.
- **Project grid** (`portfolio.dfy`, module `Portfolio`). This covers which
  repositories get a card (the non-featured ones, in order) and what each card
  shows: the title with underscores turned into spaces, the language colour
  with its default, the description fallback, and star and fork counts only
  when positive. It also covers the repository counter, which is written only
  for a non-empty list. The repository list returned by the GitHub API is an
  input.
- **Active navigation link** (`active_nav.dfy`, module `ActiveNav`). The scroll
  handler picks the id of the last section in document order whose top, less
  200, the page has scrolled past. It then gives the `active` class to exactly
  the links whose `href` is `#` followed by that id.
- **Typing effect** (`typing.dfy`, module `Typing`). A `TypingEffect` holds the
  index into its text and the element's text content. `Type` appends one
  character. `Start` clears the content without resetting the index.
  `RunToEnd` stands for the chain of timer callbacks that `type()` schedules.
  Texts are sequences of UTF-16 code units, as JavaScript's `length` and
  `charAt` count them, so a character outside the Basic Multilingual Plane
  takes two steps.

`wrappers.dfy` holds the `Option` type, which models JavaScript's `null`.

In two places the model follows the code where one might expect otherwise:

- `resize()` only sets the canvas size (script.js:16-19). It does not rebuild
  the particles, so `ParticleSystem.Resize` keeps them as they are.
- After a frame a particle satisfies 0 ≤ x ≤ width, not x < width. A particle
  leaving through the left edge is set to exactly `width` (script.js:44).
  `WrapLandsOnFarEdge` shows this case.

## Model

| member | source | states |
|---|---|---|
| `Particles.Spawn` | script.js:24-31 | with draws in [0,1): radius in [1,3), opacity in [0.3,0.8), each velocity component in [-0.25,0.25), position in the canvas, and strictly below the far edge when that dimension is positive |
| `Particles.Wrap` | script.js:43-47 | hard reset, not modulo: below 0 gives exactly the bound, beyond the bound gives exactly 0, otherwise the coordinate is kept; the result is always within [0, bound] |
| `Particles.Advance` | script.js:39-47 | after the update a particle lies in [0,width]×[0,height] whatever its prior position; velocity, radius and opacity are unchanged; without a wrap the new position is position + velocity |
| `Particles.CloseIffBelowLinkDistance` | script.js:59-63 | for the true distance d (d ≥ 0, d² = squared distance), the squared test is equivalent to d < 150 |
| `Particles.ConnectionsExact` | script.js:57-72 | the connection pass draws only lines of close pairs i < j, draws the line of every close pair, and lists the pairs in strictly increasing lexicographic order, so each pair appears at most once |
| `Particles.Alpha` | script.js:67 | for 0 ≤ d < 150 the alpha 0.15·(1 − d/150) lies in (0, 0.15], and equals 0.15 at distance 0 |
| `Particles.LineAlphaInRange` | script.js:57-67 | every line drawn has true distance below 150 and an alpha in (0, 0.15] |
| `Particles.ConnectionExample` | script.js:59-67 | particles at distance 140 are joined with alpha 0.01; at distance exactly 150 they are not joined |
| `Particles.WrapLandsOnFarEdge` | script.js:40-44 | a particle leaving through the left edge lands exactly on x = width |
| `Particles.ParticleSystem.constructor` | script.js:3-14 | takes the window's size and holds 80 particles built from the draws |
| `Particles.ParticleSystem.Resize` | script.js:16-19 | the canvas takes the window's size and the particles are left untouched |
| `Particles.ParticleSystem.Init` | script.js:21-33 | replaces the whole list by exactly 80 particles, the k-th built from the k-th draws; with valid draws all lie in the canvas |
| `Particles.ParticleSystem.Animate` | script.js:35-75 | moves every particle by `Advance` in place (count, bounds and other fields preserved, every particle in the canvas afterwards) and emits one circle per particle in order, followed by the connection pass of the new positions |
| `Particles.ParticleSystem.UpdateParticles` | script.js:39-54 | the in-place loop applies `Advance` to each particle and emits its circle at the new position |
| `Particles.ParticleSystem.DrawConnections` | script.js:57-72 | the outer loop over i emits exactly `Connections` of the particles: every close pair i < j once, in loop order |
| `Particles.ParticleSystem.DrawRow` | script.js:58-71 | the inner loop over j > i emits exactly the lines from particle i to the later particles closer than 150, in order of j |
| `Portfolio.OtherRepos` | script.js:104 | the kept repositories are exactly those of the list whose name is not featured, and there are no more of them than of the input |
| `Portfolio.OtherReposAppend` | script.js:104 | the filter preserves order: filtering a concatenation concatenates the filtered parts |
| `Portfolio.OtherReposKeepsAll` | script.js:104 | a list with no featured name is kept whole |
| `Portfolio.OtherReposIdempotent` | script.js:104 | filtering twice equals filtering once |
| `Portfolio.Title` | script.js:131 | the title has the name's length, with every `_` replaced by a space and every other character kept |
| `Portfolio.TitleProperties` | script.js:131 | a title holds no `_`, a name without `_` is its own title, and a title is its own title |
| `Portfolio.LanguageColor` | script.js:110-118 | the colour is `#8b5cf6` exactly when the language is missing or not in the table, and otherwise is a table colour |
| `Portfolio.DescriptionText` | script.js:133 | the description is the repository's own unless it is missing or empty, then the fixed French fallback; never empty |
| `Portfolio.Badge` | script.js:129 | the language badge appears exactly for a present, non-empty language, and shows that language |
| `Portfolio.Stat` | script.js:136-145 | a star or fork count appears exactly when it is > 0, and then shows the count |
| `Portfolio.CreateProjectCard` | script.js:109-162 | a card's title has the name's length and no `_`, its description is not empty, stars and forks appear exactly when positive, and it links to the repository |
| `Portfolio.DisplayAllProjects` | script.js:99-107 | nothing is written without the grid element; otherwise the grid holds one card per non-featured repository, in order |
| `Portfolio.DisplayExcludesFeatured` | script.js:84-106 | no featured repository reaches the grid, and every non-featured repository does |
| `Portfolio.UpdateRepoCount` | script.js:200-205 | the counter is written with the list's length only when the element exists and the list is not empty; otherwise it is unchanged |
| `Portfolio.RepoCountNeverWritesZero` | script.js:202-203 | the counter never comes to read 0 unless it already did |
| `ActiveNav.CurrentIdIsLastReached` | script.js:286-294 | when section k is reached and no later section is, the current id is section k's, whatever the order of the offsets |
| `ActiveNav.CurrentIdWhenNoneReached` | script.js:286-294 | with no section reached, the current id is the empty string |
| `ActiveNav.CurrentSection` | script.js:286-294 | the loop that reassigns `current` ends with the last reached section's id |
| `ActiveNav.HighlightLinks` | script.js:296-301 | afterwards a link has `active` iff its href is `#` + current; hrefs and all other classes are unchanged |
| `ActiveNav.OnScroll` | script.js:285-302 | after the handler exactly the links pointing at the current section are active |
| `ActiveNav.TopOfPageMarksBareHash` | script.js:286-299 | with no section reached, the only links made active are those whose href is the bare `#` |
| `Typing.TypeStepKeepsSynced` | script.js:330-336 | a step keeps index ≤ length and content = text[..index], and appends exactly text[index] when characters remain |
| `Typing.TypeStepsTypesPrefix` | script.js:330-336 | from a synced state, n steps leave exactly text[..min(index + n, length)] and change nothing once the text is complete |
| `Typing.FreshStartWritesText` | script.js:338-341 | a fresh effect started and left to run writes the whole text (the empty text included), and later steps change nothing |
| `Typing.SurrogatePairTakesTwoSteps` | script.js:331-333 | "a👋" takes three steps, and after two the element holds "a" and a lone high surrogate |
| `Typing.RestartAfterCompletionStaysEmpty` | script.js:338-341 | starting again after completion empties the element for good, because the index is not reset |
| `Typing.TypingEffect.constructor` | script.js:323-328 | the index starts at 0, the element keeps its content, and the delay defaults to 100 |
| `Typing.TypingEffect.Type` | script.js:330-336 | one `type()` call: appends the next character and advances while characters remain, otherwise changes nothing |
| `Typing.TypingEffect.Start` | script.js:338-341 | clears the content, keeps the index, and types once |
| `Typing.TypingEffect.RunToEnd` | script.js:334 | the chain of scheduled steps ends with the index at the end and the rest of the text appended to the content |

## Left out

- The GitHub request, JSON parsing and the fallback cards shown on an error (script.js:87-97, 164-198). These are network I/O, so the repository list is an input.
- Canvas calls, colour strings, `requestAnimationFrame` and the resize listener (script.js:13, 36, 50-53, 64-69, 74). A frame is the list of shapes it draws, and the next frame is another call of `Animate`.
- `Math.random`: the draws are parameters. `Math.sqrt` and IEEE-754 rounding: coordinates are exact reals, and distances are compared through their squares.
- Particles.ParticleSystem.constructor: does not run the first frame that the source's constructor starts. A caller calls `Animate` for it.
- Particles.ParticleSystem.constructor: does not model the failure when `#particles-canvas` is missing. There `getContext` is called on `null` and construction throws a TypeError (script.js:4-5). The model always has a canvas.
- Card HTML markup and the French date formatting of `updated_at` (script.js:120-161, 147). The card keeps the raw date string.
- Portfolio.LanguageColor: the table is modelled as a plain map. Names inherited by JavaScript objects, such as `constructor`, are not modelled as lookups that succeed.
- `ScrollAnimations`, `initLazyLoad`, `initSmoothScroll`, `initCursorEffects` and the navbar style toggle (script.js:209-319, 389-408). These are DOM and observer wiring.
- `debounce`, the page-load timer and timing in general (script.js:369-371, 376-386). The delay between typing steps is kept as a field but not modelled, and so are overlapping timer chains after a second `start()`.
- The `DOMContentLoaded` wiring (script.js:345-372).
