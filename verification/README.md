# Chapter and verse visibility toggle

A Dafny model of the click handler of the escripture reader page (`main.js`).
The page has two groups of elements: chapter labels (class `chapterlabel`) and
verse markers (`<sup>` elements). One click anywhere on the page changes what is
shown, except when the clicked element itself is an `<a>`. A click on an element
nested inside a link (a `<b>` inside an `<a>`, say) has that inner element as its
target and is not ignored. Below, a "link click" is a click whose target is
itself an `<a>`, and a "non-link click" is any other click. On every other click:

- On a page without chapter labels, the verse markers are toggled between
  `"inline"` (shown) and `"none"`.
- Otherwise the page cycles through three states: everything hidden, then
  chapter labels only (`"block"`), then chapter labels and verse markers, then
  everything hidden again.

Each element is reduced to the string value of its `display` style. The handler
reads only the first element of each group to decide what to do. It then
overwrites every element of the group it toggles, walking from the last element
to the first.

The model has two layers:

- `ToggleSpec` (`toggle_spec.dfy`) works on values. A `Page` holds the two
  groups as sequences of display strings. `Click` is the handler, and `Run` is
  a sequence of clicks. The lemmas state the cycle, the two-way toggle, the
  link guard, the off-table state and uniformity.
- `ToggleScript` (`toggler.dfy`) is the script's own form. A class `Toggler`
  holds the two collections as `array<string>` fields. `ToggleChap` and
  `ToggleVers` overwrite them in place with a descending loop. `MainToggle` is
  proved to leave the arrays holding exactly `ToggleSpec.Click` of their old
  contents, so every lemma about `Click` carries over to the arrays.

The code writes `"none"` to hide an element. A hidden element whose style was
never set has the empty string. Either way it counts as hidden, because only
`"block"` or `"inline"` count as shown. For this reason, two clicks on a page
without chapters restore the verse markers' exact values only when those values
were `"inline"` or `"none"` (`TwoWayTwoClicksRestore`). From unset markers, two
clicks leave them at `"none"`.

## Model

| member | source | states |
|---|---|---|
| `ToggleSpec.ToggleGroup` | main.js:13-35 | a toggled group keeps its length and becomes uniform; its first value is the shown value exactly when the old first value was not; otherwise it is "none" |
| `ToggleSpec.Click` | main.js:40-74 | a click never adds or removes chapter labels or verse markers; every non-link click needs a verse marker, since each such path reads `vers[0]` |
| `ToggleSpec.AnchorClickIsNoop` | main.js:52-54 | a click whose target's `localName` is "a" leaves the page unchanged |
| `ToggleSpec.ClickPreservesUniform` | main.js:13-74 | if each group is uniform before a click, it is uniform after it |
| `ToggleSpec.ClickAdvancesPhase` | main.js:60-73 | with both groups non-empty, every non-link click moves the phase read from the first elements one step along hidden → chapters only → both → hidden, whatever the other elements hold |
| `ToggleSpec.ThreeWayCycle` | main.js:61-72 | the exact display values of the cycle: none/none → block/none → block/inline → none/none |
| `ToggleSpec.OffTableClick` | main.js:69-72 | with chapters not "block" and verses "inline", a click makes every chapter label "block" and every verse marker "none" |
| `ToggleSpec.Advance` | main.js:63-72 | after one or more steps of the cycle, the off-table phase (verses shown, chapters hidden) is never reached |
| `ToggleSpec.TwoWayClickFlips` | main.js:57-59 | without chapter labels, each non-link click flips whether the verse markers are shown and leaves them uniform |
| `ToggleSpec.TwoWayTwoClicksRestore` | main.js:57-59 | without chapter labels, two clicks restore a uniform group of verse markers if and only if it held "inline" or "none" |
| `ToggleSpec.Run` | main.js:90 | a sequence of clicks never changes the number of elements in either group |
| `ToggleSpec.RunAdvancesPhase` | main.js:40-74 | over a sequence of clicks, the phase advances once per non-link click; link clicks do not count |
| `ToggleSpec.AdvancePeriod` | main.js:61-72 | the cycle has period three on its three states |
| `ToggleSpec.ThreeWayPeriod` | main.js:61-72 | with chapter labels present, a run of clicks where a multiple of three are non-link clicks returns the page to its starting phase |
| `ToggleSpec.TwoWayRun` | main.js:56-59 | without chapter labels, verse markers are shown after a run iff they were shown before and the number of non-link clicks is even, or hidden before and it is odd |
| `ToggleScript.SetAll` | main.js:15-17 | the descending loop leaves every element of the array with the written value |
| `ToggleScript.Toggler.constructor` | main.js:10-11 | the toggler holds two distinct collections: chapter labels and verse markers |
| `ToggleScript.Toggler.ToggleChap` | main.js:13-23 | every chapter label becomes "block" if the first was not "block", and "none" otherwise; verse markers are unchanged |
| `ToggleScript.Toggler.ToggleVers` | main.js:25-35 | every verse marker becomes "inline" if the first was not "inline", and "none" otherwise; chapter labels are unchanged |
| `ToggleScript.Toggler.MainToggle` | main.js:40-74 | the arrays afterwards hold exactly `Click` of their old contents; a link click changes neither array |

## Left out

- DOM lookup (`document.querySelector`, `getElementsByClassName`, `getElementsByTagName`) and the live-collection semantics. The two groups are given to the constructor as arrays, and no elements are added or removed between clicks.
- Event-listener registration on the `html` element. Click delivery is modelled as a call to `MainToggle`, or as a step of `ToggleSpec.Run`. The event object is reduced to its target's `localName`.
- The commented-out debugging code: the background-colour feedback and the `testa` handler with its console and alert output.
- Rendering. `"block"`, `"inline"` and `"none"` are opaque strings here.
- The failure when a non-link click reaches an empty set of verse markers. The script raises a TypeError reading `vers[0]`. The model states this as a precondition and does not model the exception.
- The two groups are assumed to share no element. The model holds each group's display values in its own array, so writing to one group never changes the other. In the page, one element could be in both collections (a `<sup class="chapterlabel">`). Then a write by one toggle would be seen by the next read of the other. Such an element can get stuck at `"inline"`, and the cycle proofs do not cover it.
- A second variant of the script that selects verse markers by class and has no link guard is not part of this model.
