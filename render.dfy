/** The values the component's render puts on screen for a view state: the
    number's text and colour, the gauge's width, colour and label, the
    play/pause label, and the menu's entries. Markup, layout classes and icons
    are not part of this view. */
module Render {
  import opened Text
  import opened Appearance
  import opened ViewState

  datatype Option<T> = None | Some(value: T)

  datatype GaugeView = GaugeView(width: string, fill: string, caption: string)

  datatype MenuItem = MenuItem(key: Theme, title: string, highlighted: bool)

  datatype MenuView = MenuView(gaugeItem: string, items: seq<MenuItem>)

  datatype View = View(
    numberText: string,
    numberColor: string,
    gauge: Option<GaugeView>,
    playPause: string,
    menu: Option<MenuView>)

  /** The number as displayed: its numeral padded on the left with '0' to two characters. */
  function NumberText(n: nat): string {
    PadStart(Decimal(n), 2, '0')
  }

  /** The number followed by '%': the gauge's CSS width and its caption. */
  function PercentText(n: nat): string {
    Decimal(n) + "%"
  }

  /** For every number of the range, the display is exactly two digits and
      reads back as the number. */
  lemma NumberTextTwoDigits(n: nat)
    requires n < 100
    ensures |NumberText(n)| == 2 && AllDigits(NumberText(n))
    ensures ParseDecimal(NumberText(n)) == n
  {
    var d := Decimal(n);
    ParseDecimalOfDecimal(n);
    if |d| == 1 {
      assert NumberText(n) == Repeat('0', 1) + d;
      ParseIgnoresLeadingZeros(1, d);
    } else {
      assert NumberText(n) == d;
    }
  }

  /** A percentage ends in '%' and what precedes it reads back as the number. */
  lemma PercentTextReadsBack(n: nat)
    ensures |PercentText(n)| >= 2 && PercentText(n)[|PercentText(n)| - 1] == '%'
    ensures AllDigits(PercentText(n)[..|PercentText(n)| - 1])
    ensures ParseDecimal(PercentText(n)[..|PercentText(n)| - 1]) == n
  {
    var p := PercentText(n);
    assert p[..|p| - 1] == Decimal(n);
    ParseDecimalOfDecimal(n);
  }

  /** The theme entries of the menu: one per option, in order, each highlighted
      when its key is the current theme. When the keys are distinct and the
      current theme is among them, exactly one entry is highlighted. */
  function MenuItems(options: seq<ThemeOption>, current: Theme): (items: seq<MenuItem>)
    ensures |items| == |options|
    ensures forall i :: 0 <= i < |options| ==>
      items[i].key == options[i].key && items[i].title == options[i].title
    ensures forall i :: 0 <= i < |items| ==> (items[i].highlighted <==> items[i].key == current)
    ensures current in Keys(options) &&
            (forall i, j :: 0 <= i < j < |options| ==> options[i].key != options[j].key) ==>
      (exists i :: 0 <= i < |items| && items[i].highlighted) &&
      (forall i, j :: 0 <= i < j < |items| ==> !(items[i].highlighted && items[j].highlighted))
  {
    seq(|options|, i requires 0 <= i < |options| =>
      MenuItem(options[i].key, options[i].title, options[i].key == current))
  }

  function RenderView(s: DisplayState): View
    requires Inv(s)
  {
    View(
      NumberText(s.number),
      NumberColor(s.number),
      if s.showGauge then Some(GaugeView(PercentText(s.number), GaugeColor(s.number), PercentText(s.number))) else None,
      if s.isRunning then "Pause" else "Play",
      if s.showMenu then Some(MenuView(if s.showGauge then "Hide Progress" else "Show Progress",
                                       MenuItems(ThemeOptions, s.theme)))
      else None)
  }

  /** The number is shown as two digits that read back as the number, in the
      colour of its band. */
  lemma RenderedNumber(s: DisplayState)
    requires Inv(s)
    ensures |RenderView(s).numberText| == 2 && AllDigits(RenderView(s).numberText)
    ensures ParseDecimal(RenderView(s).numberText) == s.number
    ensures RenderView(s).numberColor == NumberClass(BandOf(s.number))
  {
    NumberTextTwoDigits(s.number);
  }

  /** The gauge is shown exactly when `showGauge` holds; its width and caption
      are the same text, which reads back as the number, and its fill is the
      class of the number's band, the same band as the number's colour. */
  lemma RenderedGauge(s: DisplayState)
    requires Inv(s)
    ensures RenderView(s).gauge.Some? <==> s.showGauge
    ensures s.showGauge ==> (
      var g := RenderView(s).gauge.value;
      g.width == g.caption &&
      |g.width| >= 2 && g.width[|g.width| - 1] == '%' &&
      AllDigits(g.width[..|g.width| - 1]) &&
      ParseDecimal(g.width[..|g.width| - 1]) == s.number &&
      g.fill == GaugeClass(BandOf(s.number)))
  {
    PercentTextReadsBack(s.number);
  }

  /** The play/pause control offers to pause exactly while the timer runs. */
  lemma RenderedPlayPause(s: DisplayState)
    requires Inv(s)
    ensures RenderView(s).playPause == "Pause" <==> s.isRunning
  {
  }

  /** The menu is shown exactly when `showMenu` holds; it lists the theme
      options in order (so every theme once, by `ThemeOptionsListEachThemeOnce`)
      after the gauge item, which offers to hide the gauge exactly while it is shown,
      and exactly one entry, the current theme's, is highlighted. */
  lemma RenderedMenu(s: DisplayState)
    requires Inv(s)
    ensures RenderView(s).menu.Some? <==> s.showMenu
    ensures s.showMenu ==> (RenderView(s).menu.value.gaugeItem == "Hide Progress" <==> s.showGauge)
    ensures s.showMenu ==> RenderView(s).menu.value.items == MenuItems(ThemeOptions, s.theme)
    ensures var items := MenuItems(ThemeOptions, s.theme);
      |items| == |ThemeOptions| &&
      (forall i :: 0 <= i < |items| ==> items[i].key == ThemeOptions[i].key && items[i].title == ThemeOptions[i].title) &&
      (forall i :: 0 <= i < |items| ==> (items[i].highlighted <==> items[i].key == s.theme)) &&
      (exists i :: 0 <= i < |items| && items[i].highlighted) &&
      (forall i, j :: 0 <= i < j < |items| ==> !(items[i].highlighted && items[j].highlighted))
  {
    ThemeOptionsListEachThemeOnce();
  }
}
