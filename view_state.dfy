/** The component's view state as a value, and the change each event makes
    to it. This is the specification the handlers of `Component.App` are
    proved against; the lemmas below are stated over it. */
module ViewState {
  import opened Appearance

  /** One draw of the random source: an integer from 0 to 99. */
  type Roll = n: int | 0 <= n < 100

  datatype DisplayState = DisplayState(
    number: int,
    isRunning: bool,
    showGauge: bool,
    theme: Theme,
    showMenu: bool)

  /** The events that change the view state. `Tick` is the interval callback,
      `Generate` the dice button; both carry the draw they store. */
  datatype Event =
    | Tick(draw: Roll)
    | Generate(draw: Roll)
    | TogglePlay
    | ToggleMenu
    | ToggleGauge
    | SelectTheme(key: Theme)
    | MouseDown(insideMenu: bool)

  /** The global invariant: the number stays in the range of the draw. (That the
      theme is one of the five values is already the type `Theme`.) */
  ghost predicate Inv(s: DisplayState) {
    0 <= s.number < 100
  }

  /** The state right after mounting: the first draw shown, the timer running,
      the gauge visible, the system theme, the menu closed. */
  function Initial(draw: Roll): (s: DisplayState)
    ensures Inv(s)
  {
    DisplayState(draw, true, true, System, false)
  }

  /** Whether the event can reach the component in state `s`: the interval
      exists only while running, and the menu items exist only while the menu
      is shown. The buttons and the document listener are always there. */
  predicate Enabled(s: DisplayState, e: Event) {
    match e
    case Tick(_) => s.isRunning
    case ToggleGauge => s.showMenu
    case SelectTheme(_) => s.showMenu
    case _ => true
  }

  /** The handlers' effect on the view state. */
  function Next(s: DisplayState, e: Event): (t: DisplayState)
    ensures Inv(s) ==> Inv(t)
  {
    match e
    case Tick(r) => s.(number := r)
    case Generate(r) => s.(number := r)
    case TogglePlay => s.(isRunning := !s.isRunning)
    case ToggleMenu => s.(showMenu := !s.showMenu)
    case ToggleGauge => s.(showGauge := !s.showGauge, showMenu := false)
    case SelectTheme(k) => s.(theme := k, showMenu := false)
    case MouseDown(inside) =>
      if s.showMenu && !inside then s.(showMenu := false) else s
  }

  /** The fields of the view state, to state which ones an event may write. */
  datatype Field = NumberField | RunningField | GaugeField | ThemeField | MenuField

  /** The frame table: the fields each handler writes. */
  function Writes(e: Event): set<Field> {
    match e
    case Tick(_) => {NumberField}
    case Generate(_) => {NumberField}
    case TogglePlay => {RunningField}
    case ToggleMenu => {MenuField}
    case ToggleGauge => {GaugeField, MenuField}
    case SelectTheme(_) => {ThemeField, MenuField}
    case MouseDown(_) => {MenuField}
  }

  predicate SameOn(s: DisplayState, t: DisplayState, f: Field) {
    match f
    case NumberField => s.number == t.number
    case RunningField => s.isRunning == t.isRunning
    case GaugeField => s.showGauge == t.showGauge
    case ThemeField => s.theme == t.theme
    case MenuField => s.showMenu == t.showMenu
  }

  predicate SameOutside(s: DisplayState, t: DisplayState, fs: set<Field>) {
    forall f: Field :: f !in fs ==> SameOn(s, t, f)
  }

  /** Every event leaves every field outside its frame as it was. */
  lemma NextRespectsFrame(s: DisplayState, e: Event)
    ensures SameOutside(s, Next(s, e), Writes(e))
  {
  }

  /** A tick and the dice button store their draw, which is in [0,99]. */
  lemma DrawStored(s: DisplayState, r: Roll)
    ensures Next(s, Tick(r)).number == r && Inv(Next(s, Tick(r)))
    ensures Next(s, Generate(r)).number == r && Inv(Next(s, Generate(r)))
  {
  }

  /** Play/pause flips the running flag, and pressing it twice restores the state. */
  lemma TogglePlayFlips(s: DisplayState)
    ensures Next(s, TogglePlay).isRunning == !s.isRunning
    ensures Next(Next(s, TogglePlay), TogglePlay) == s
  {
  }

  /** Both kinds of menu item close the menu; the gauge item flips the gauge
      and a theme item stores its key. */
  lemma MenuItemsActAndClose(s: DisplayState, k: Theme)
    ensures !Next(s, ToggleGauge).showMenu && Next(s, ToggleGauge).showGauge == !s.showGauge
    ensures !Next(s, SelectTheme(k)).showMenu && Next(s, SelectTheme(k)).theme == k
  {
  }

  /** A mouse-down closes the menu exactly when the menu is open and the target
      is outside it; otherwise it changes nothing. */
  lemma MouseDownClosesOnlyOutside(s: DisplayState, inside: bool)
    ensures Next(s, MouseDown(inside)).showMenu == (s.showMenu && inside)
    ensures Next(s, MouseDown(inside)) == s <==> !s.showMenu || inside
  {
  }

  /** The state after a sequence of events. */
  function Run(s: DisplayState, es: seq<Event>): DisplayState
    decreases |es|
  {
    if es == [] then s else Run(Next(s, es[0]), es[1..])
  }

  /** Whether each event of `es` can happen in the state it finds. */
  predicate EnabledTrace(s: DisplayState, es: seq<Event>)
    decreases |es|
  {
    es == [] || (Enabled(s, es[0]) && EnabledTrace(Next(s, es[0]), es[1..]))
  }

  /** Every sequence of events keeps the invariant, so every state reached
      from mounting has its number in [0,99]. */
  lemma {:induction false} RunKeepsInv(s: DisplayState, es: seq<Event>)
    requires Inv(s)
    ensures Inv(Run(s, es))
    decreases |es|
  {
    if es != [] {
      RunKeepsInv(Next(s, es[0]), es[1..]);
    }
  }

  /** A field that no event of the sequence writes keeps its value; in
      particular the theme changes only by choosing one, and the number only
      by a tick or the dice button. */
  lemma {:induction false} RunRespectsFrame(s: DisplayState, es: seq<Event>, f: Field)
    requires forall i :: 0 <= i < |es| ==> f !in Writes(es[i])
    ensures SameOn(s, Run(s, es), f)
    decreases |es|
  {
    if es != [] {
      NextRespectsFrame(s, es[0]);
      var t := Next(s, es[0]);
      assert SameOn(s, t, f);
      RunRespectsFrame(t, es[1..], f);
    }
  }

  /** While paused, the number changes only through the dice button: with no
      play/pause and no dice press, no tick can arrive and the number stays. */
  lemma {:induction false} PausedNumberStays(s: DisplayState, es: seq<Event>)
    requires !s.isRunning
    requires EnabledTrace(s, es)
    requires forall i :: 0 <= i < |es| ==> !es[i].TogglePlay? && !es[i].Generate?
    ensures Run(s, es).number == s.number
    ensures !Run(s, es).isRunning
    decreases |es|
  {
    if es != [] {
      var t := Next(s, es[0]);
      assert t.number == s.number && !t.isRunning;
      PausedNumberStays(t, es[1..]);
    }
  }
}
