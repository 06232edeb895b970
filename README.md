# roll100 in Dafny

roll100 is a single React component (`src/App.tsx`). It shows a random
integer from 0 to 99 and redraws it every second while running. It draws a
gauge as wide as the number, coloured in the same band as the number. A small
menu toggles the gauge and picks one of five themes: light, dark, system,
low-contrast and high-contrast. The chosen theme is put on the document root
as exactly one class. The system theme follows the operating system's dark
or light preference.

This project models the logic inside the component:

- `Text`: the two string operations used on the number. These are
  `toString()` of a non-negative integer below 10^21 (`Decimal`), which
  covers the component's 0..99, and `padStart` with a one-character fill
  (`PadStart`). `ParseDecimal` reads a numeral back.
- `Appearance`: the `Theme` type and its string keys (`ThemeKey`,
  `src/App.tsx:4`), and the menu's list of theme options (`ThemeOptions`,
  `src/App.tsx:82-88`). It also holds the four colour bands: `BandOf` is an
  independent reference definition by quarters of 25, and the component's
  own branch chains `NumberColor` and `GaugeColor` are proved against it.
  Last, `ResolvedClass` is the class the theme effect puts on the root.
- `ViewState`: the five state fields as a value (`DisplayState`) and the
  events that change it (`Event`). It holds the handlers' effect (`Next`)
  and a frame table of which fields each event writes (`Writes`).
  `Enabled` says which events can reach the component in a given state: the
  interval exists only while running (`src/App.tsx:19-24`), and the menu
  items only while the menu is shown (`src/App.tsx:149`). It also defines event sequences (`Run`, `EnabledTrace`)
  and the lemmas over them.
- `Render`: the values the render shows for a state (`RenderView`,
  `src/App.tsx:96-183`): the number's text and colour, the gauge's width,
  fill and caption, the play/pause label, and the menu's entries with the
  current theme highlighted. `NumberText` is the padded display
  (`src/App.tsx:98`); `PercentText` is the gauge's width and caption
  (`src/App.tsx:108`, `src/App.tsx:113`).
- `Component`: the imperative form. `Root` is the document element's class
  list. `App` has the five state fields, the current colour-scheme
  preference and one method per handler. Each handler is proved to move
  `State()` as `ViewState.Next` says and to keep `Valid()`: the number is in
  [0,99] and the root carries exactly the resolved theme's class.

The random draw is the type `Roll`, an integer in [0,99]; the
floating-point `Math.floor(Math.random() * 100)` is not modelled. The
browser's answers are boolean parameters: the `prefers-color-scheme: dark`
query is `prefersDark` or `matches`, and "the target is inside
`.menu-container`" is `insideMenu`. That the theme is always one of the five
values follows from the type `Theme`.

Two points where the code's behaviour is easy to misread:

- The mouse-down listener is registered all the time, and the handler itself
  tests `showMenu` (`src/App.tsx:55-64`). So the menu closes only while open
  and only for an outside target.
- The theme effect depends on `[theme]`, so choosing the theme that is
  already selected does not apply it again. `App.SelectThemeItem` does the
  same and proves that the root is still right, because `Valid()` already
  held.

## Model

| member | source | states |
|---|---|---|
| `Text.Decimal` | src/App.tsx:98 | the numeral of n is non-empty, all digits and has no leading zero; it has one character exactly when n < 10 and at most two exactly when n < 100 |
| `Text.PadStart` | src/App.tsx:98 | the result is as long as s or target, whichever is longer, ends with s, and every character before s is the fill |
| `Text.ParseDecimalOfDecimal` | src/App.tsx:98 | reading the numeral of n back gives n |
| `Text.ParseIgnoresLeadingZeros` | src/App.tsx:98 | zeros put in front of a numeral keep it all digits and do not change its value |
| `Render.NumberTextTwoDigits` | src/App.tsx:98 | for n in [0,99] the padded display is exactly two digits that read back as n |
| `Render.PercentTextReadsBack` | src/App.tsx:108-113 | the percentage text ends in '%' and what precedes it is the numeral of n |
| `Appearance.BandOf` | src/App.tsx:67-72 | on [0,99] the bands partition the range: green iff n < 25, blue iff 25 <= n < 50, yellow iff 50 <= n < 75, red iff 75 <= n |
| `Appearance.NumberColor` | src/App.tsx:67-72 | the number's colour is the text class of the band `BandOf` gives, for every integer |
| `Appearance.GaugeColor` | src/App.tsx:75-80 | the gauge's fill is the gauge class of the same band, for every integer |
| `Appearance.NumberClassInjective` | src/App.tsx:67-72 | different bands get different text classes |
| `Appearance.GaugeClassInjective` | src/App.tsx:75-80 | different bands get different gauge classes |
| `Appearance.GaugeMatchesNumber` | src/App.tsx:67-80 | two numbers share a text colour iff they share a band iff they share a gauge colour, so gauge and number always agree |
| `Appearance.BandBoundaries` | src/App.tsx:67-72 | the band edges: 0 and 24 green, 25 and 49 blue, 50 and 74 yellow, 75 and 99 red |
| `Appearance.ThemeKeyInjective` | src/App.tsx:4 | the five theme strings are pairwise different |
| `Appearance.ThemeOptionsListEachThemeOnce` | src/App.tsx:82-88 | the menu's theme list contains every theme, and no key twice |
| `Appearance.ResolvedClass` | src/App.tsx:31-36 | the class applied is never 'system'; for any theme other than system it is that theme's own key |
| `Appearance.ResolvedClassIsConcrete` | src/App.tsx:31-36 | the applied class is the key of a non-system theme; it is 'dark' iff dark was chosen, or system was chosen and dark is preferred; it is 'light' iff light was chosen, or system was chosen and dark is not preferred |
| `ViewState.Initial` | src/App.tsx:7-11 | the state after mounting satisfies the invariant |
| `ViewState.Next` | src/App.tsx:14-16 | every handler keeps the number in [0,99] |
| `ViewState.NextRespectsFrame` | src/App.tsx:122-175 | every event leaves every field outside its frame as it was: draws write only the number, play/pause only the running flag, the menu button only the menu flag, the gauge item the gauge and menu flags, a theme item the theme and menu flags, a mouse-down only the menu flag |
| `ViewState.DrawStored` | src/App.tsx:14-16 | a tick and the dice button store their draw, and the result satisfies the invariant |
| `ViewState.TogglePlayFlips` | src/App.tsx:122 | play/pause negates the running flag, and pressing it twice restores the whole state |
| `ViewState.MenuItemsActAndClose` | src/App.tsx:153-175 | the gauge item flips the gauge and closes the menu; a theme item stores its key and closes the menu |
| `ViewState.MouseDownClosesOnlyOutside` | src/App.tsx:57-59 | after a mouse-down the menu is open iff it was open and the target was inside; the state is unchanged iff the menu was closed or the target was inside |
| `ViewState.RunKeepsInv` | src/App.tsx:19-24 | every sequence of events keeps the number in [0,99] |
| `ViewState.RunRespectsFrame` | src/App.tsx:122-175 | a field that no event of a sequence writes keeps its value over the whole sequence |
| `ViewState.PausedNumberStays` | src/App.tsx:19-24 | from a paused state, a sequence of deliverable events without play/pause and without the dice button leaves the number unchanged and the timer paused: no tick arrives while paused |
| `Render.RenderedNumber` | src/App.tsx:96-99 | the shown number is two digits that read back as the state's number, in the text class of its band |
| `Render.RenderedGauge` | src/App.tsx:103-115 | the gauge is present iff showGauge; its width equals its caption, ends in '%', reads back as the number, and its fill is the gauge class of the number's band |
| `Render.RenderedPlayPause` | src/App.tsx:124-126 | the control offers "Pause" iff the timer is running |
| `Render.MenuItems` | src/App.tsx:169-183 | one entry per theme option, in order, with its key and title; an entry is highlighted iff its key is the current theme; when the keys are distinct and include the current theme, exactly one entry is highlighted |
| `Render.RenderedMenu` | src/App.tsx:149-183 | the menu is present iff showMenu; its gauge item offers "Hide Progress" iff the gauge is shown; it lists the theme options in order; exactly one entry is highlighted, the current theme's |
| `Component.Root.ClearClasses` | src/App.tsx:29 | `className = ''` leaves the class list empty |
| `Component.Root.AddClass` | src/App.tsx:33-35 | `classList.add` appends the class unless it is already present |
| `Component.App.constructor` | src/App.tsx:7-11 | the state after mounting is `Initial(draw)`, and the first theme-effect run leaves the root with the resolved class |
| `Component.App.ApplyTheme` | src/App.tsx:27-37 | after the theme effect the root's class list is exactly the one resolved class |
| `Component.App.Generate` | src/App.tsx:14-16 | the state moves by `Next` on a dice press; the invariant and the preference are kept |
| `Component.App.Tick` | src/App.tsx:19-24 | the interval callback runs only while running and moves the state by `Next` on a tick |
| `Component.App.TogglePlay` | src/App.tsx:122 | the state moves by `Next` on play/pause |
| `Component.App.ToggleMenu` | src/App.tsx:141 | the state moves by `Next` on the menu button |
| `Component.App.ToggleGaugeItem` | src/App.tsx:153-156 | reachable only while the menu is shown; the state moves by `Next` on the gauge item |
| `Component.App.SelectThemeItem` | src/App.tsx:172-175 | reachable only while the menu is shown; the state moves by `Next` on the theme item; the root then carries exactly the class the new theme resolves to |
| `Component.App.MouseDown` | src/App.tsx:55-64 | the state moves by `Next` on a mouse-down with the given containment |
| `Component.App.PreferenceChanged` | src/App.tsx:40-52 | a preference change leaves the view state alone; the root follows the new preference while the theme is system, and is untouched otherwise |

## Left out

- JSX markup, layout and Tailwind classes other than the four colour-band classes, and the lucide icons: presentation only. `Render` keeps only the values listed above.
- Component.App.Tick: the 1000 ms cadence is not modelled, so "generate now does not disturb the timer's schedule" is not stated. A tick is allowed iff the timer runs.
- React's effect lifecycle: dependency arrays, cleanup order, and subscribing and unsubscribing the interval, media and mouse-down listeners. Each listener's existence is reduced to a condition: `Enabled` for ticks and menu items, the `theme == System` test in `App.PreferenceChanged` for the media listener, and an always-present mouse-down listener.
- React batches the two setter calls inside one handler into one update. The model applies them together as one step.
- `Math.random()` and `Math.floor(x * 100)`: floating point. The draw is any `Roll` in [0,99].
- `window.matchMedia`, `Element.closest` and `document.documentElement`: browser APIs. They are booleans and a `Root` object holding a sequence of class names.
- Component.Root.AddClass: `DOMTokenList.add` throws on an empty or whitespace-containing token; the component never passes one, and the model does not include that error.
- Text.Decimal: gives plain digits for every non-negative integer, while JavaScript's `toString()` switches to exponent form from 10^21; the component only shows 0..99.
- `export default App` and the module imports: packaging, nothing to model.
