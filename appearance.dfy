/** The component's display mappings that do not depend on more than one
    field: the colour bands of the number and of the gauge, the five themes
    with their menu labels, and how a theme choice resolves to the single
    class put on the document root. */
module Appearance {

  datatype Theme = Light | Dark | System | LowContrast | HighContrast

  /** The string value of a theme, which is also the class name it puts on the root. */
  function ThemeKey(t: Theme): string {
    match t
    case Light => "light"
    case Dark => "dark"
    case System => "system"
    case LowContrast => "low-contrast"
    case HighContrast => "high-contrast"
  }

  lemma ThemeKeyInjective(a: Theme, b: Theme)
    ensures ThemeKey(a) == ThemeKey(b) <==> a == b
  {
  }

  /** The class the theme effect adds after clearing the root: the operating
      system's preference for `System`, the theme's own key otherwise. */
  function ResolvedClass(t: Theme, prefersDark: bool): (c: string)
    ensures c != ThemeKey(System)
    ensures t != System ==> c == ThemeKey(t)
  {
    if t == System then (if prefersDark then "dark" else "light") else ThemeKey(t)
  }

  /** The resolved class always names one of the four concrete themes, and it is
      the dark one exactly when that theme was chosen, or when the system
      theme was chosen and the preference is dark. */
  lemma ResolvedClassIsConcrete(t: Theme, prefersDark: bool)
    ensures exists r: Theme :: r != System && ResolvedClass(t, prefersDark) == ThemeKey(r)
    ensures ResolvedClass(t, prefersDark) == ThemeKey(Dark) <==> t == Dark || (t == System && prefersDark)
    ensures ResolvedClass(t, prefersDark) == ThemeKey(Light) <==> t == Light || (t == System && !prefersDark)
  {
    var r := if t == System then (if prefersDark then Dark else Light) else t;
    assert ResolvedClass(t, prefersDark) == ThemeKey(r);
    ThemeKeyInjective(r, Dark);
    ThemeKeyInjective(r, Light);
  }

  /** One entry of the menu's theme list. */
  datatype ThemeOption = ThemeOption(key: Theme, title: string)

  const ThemeOptions: seq<ThemeOption> := [
    ThemeOption(Light, "Light"),
    ThemeOption(Dark, "Dark"),
    ThemeOption(System, "System"),
    ThemeOption(LowContrast, "Low Contrast"),
    ThemeOption(HighContrast, "High Contrast")
  ]

  function Keys(options: seq<ThemeOption>): (ks: seq<Theme>)
    ensures |ks| == |options|
    ensures forall i :: 0 <= i < |options| ==> ks[i] == options[i].key
  {
    seq(|options|, i requires 0 <= i < |options| => options[i].key)
  }

  /** The menu offers every theme, each exactly once. */
  lemma ThemeOptionsListEachThemeOnce()
    ensures forall t: Theme :: t in Keys(ThemeOptions)
    ensures forall i, j :: 0 <= i < j < |ThemeOptions| ==> ThemeOptions[i].key != ThemeOptions[j].key
  {
    var ks := Keys(ThemeOptions);
    forall t: Theme ensures t in ks {
      match t
      case Light => assert ks[0] == t;
      case Dark => assert ks[1] == t;
      case System => assert ks[2] == t;
      case LowContrast => assert ks[3] == t;
      case HighContrast => assert ks[4] == t;
    }
  }

  /** The four colour families the number range is split into. */
  datatype Band = Green | Blue | Yellow | Red

  /** Reference definition of the bands: the range is cut into quarters of
      25; anything below the first quarter counts as green and anything above
      the last as red. */
  function BandOf(n: int): (b: Band)
    ensures 0 <= n < 100 ==> (b == Green <==> 0 <= n < 25)
    ensures 0 <= n < 100 ==> (b == Blue <==> 25 <= n < 50)
    ensures 0 <= n < 100 ==> (b == Yellow <==> 50 <= n < 75)
    ensures 0 <= n < 100 ==> (b == Red <==> 75 <= n < 100)
  {
    var quarter := n / 25;
    if quarter <= 0 then Green else if quarter == 1 then Blue else if quarter == 2 then Yellow else Red
  }

  /** The text-colour class of a band. */
  function NumberClass(b: Band): string {
    match b
    case Green => "text-green-500"
    case Blue => "text-blue-500"
    case Yellow => "text-yellow-500"
    case Red => "text-red-500"
  }

  /** The gauge-fill class of a band. */
  function GaugeClass(b: Band): string {
    match b
    case Green => "bg-gradient-to-r from-green-400 to-green-600"
    case Blue => "bg-gradient-to-r from-blue-400 to-blue-600"
    case Yellow => "bg-gradient-to-r from-yellow-400 to-yellow-600"
    case Red => "bg-gradient-to-r from-red-400 to-red-600"
  }

  /** The text colour of the number, as the component chooses it. */
  function NumberColor(n: int): (c: string)
    ensures c == NumberClass(BandOf(n))
  {
    if n < 25 then "text-green-500"
    else if n < 50 then "text-blue-500"
    else if n < 75 then "text-yellow-500"
    else "text-red-500"
  }

  /** The fill of the gauge, as the component chooses it. */
  function GaugeColor(n: int): (c: string)
    ensures c == GaugeClass(BandOf(n))
  {
    if n < 25 then "bg-gradient-to-r from-green-400 to-green-600"
    else if n < 50 then "bg-gradient-to-r from-blue-400 to-blue-600"
    else if n < 75 then "bg-gradient-to-r from-yellow-400 to-yellow-600"
    else "bg-gradient-to-r from-red-400 to-red-600"
  }

  lemma NumberClassInjective(a: Band, b: Band)
    ensures NumberClass(a) == NumberClass(b) <==> a == b
  {
  }

  lemma GaugeClassInjective(a: Band, b: Band)
    ensures GaugeClass(a) == GaugeClass(b) <==> a == b
  {
  }

  /** The number and the gauge always wear the same colour family: two numbers
      get the same text colour exactly when they get the same gauge colour,
      and both colours determine the band. */
  lemma GaugeMatchesNumber(n: int, m: int)
    ensures NumberColor(n) == NumberColor(m) <==> BandOf(n) == BandOf(m)
    ensures GaugeColor(n) == GaugeColor(m) <==> BandOf(n) == BandOf(m)
    ensures NumberColor(n) == NumberColor(m) <==> GaugeColor(n) == GaugeColor(m)
  {
  }

  /** The band edges: 24/25, 49/50 and 74/75. */
  lemma BandBoundaries()
    ensures NumberColor(0) == "text-green-500" && NumberColor(24) == "text-green-500"
    ensures NumberColor(25) == "text-blue-500" && NumberColor(49) == "text-blue-500"
    ensures NumberColor(50) == "text-yellow-500" && NumberColor(74) == "text-yellow-500"
    ensures NumberColor(75) == "text-red-500" && NumberColor(99) == "text-red-500"
  {
  }
}
