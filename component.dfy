/** The component as objects: the document root whose class list the theme
    effect rewrites, and the component whose five state fields the event
    handlers set. Each handler is proved to move the state as
    `ViewState.Next` says and to keep the root showing the resolved theme. */
module Component {
  import opened Appearance
  import opened ViewState

  /** The document element's class list. */
  class Root {
    var classes: seq<string>

    constructor ()
      ensures classes == []
    {
      classes := [];
    }

    /** `className = ''`: drops every class. */
    method ClearClasses()
      modifies this
      ensures classes == []
    {
      classes := [];
    }

    /** `classList.add(c)`: appends `c` unless it is already present. */
    method AddClass(c: string)
      modifies this
      ensures classes == if c in old(classes) then old(classes) else old(classes) + [c]
    {
      if c !in classes {
        classes := classes + [c];
      }
    }
  }

  class App {
    var number: int
    var isRunning: bool
    var showGauge: bool
    var theme: Theme
    var showMenu: bool
    /** What the `prefers-color-scheme: dark` query currently reports. */
    var prefersDark: bool
    const root: Root

    /** The number is in [0,99] and the root carries exactly the one class the
        current theme resolves to. */
    ghost predicate Valid()
      reads this, root
    {
      0 <= number < 100 && root.classes == [ResolvedClass(theme, prefersDark)]
    }

    function State(): DisplayState
      reads this
    {
      DisplayState(number, isRunning, showGauge, theme, showMenu)
    }

    /** Mounting: the first draw, the initial flags, and the theme effect's
        first run. */
    constructor (draw: Roll, prefersDark: bool, root: Root)
      modifies root
      ensures Valid() && State() == Initial(draw)
      ensures this.prefersDark == prefersDark && this.root == root
    {
      number := draw;
      isRunning := true;
      showGauge := true;
      theme := System;
      showMenu := false;
      this.prefersDark := prefersDark;
      this.root := root;
      new;
      ApplyTheme();
    }

    /** The theme effect: clear the root's classes, then add the one class the
        theme resolves to. */
    method ApplyTheme()
      modifies root
      ensures root.classes == [ResolvedClass(theme, prefersDark)]
    {
      root.ClearClasses();
      if theme == System {
        root.AddClass(if prefersDark then "dark" else "light");
      } else {
        root.AddClass(ThemeKey(theme));
      }
    }

    /** `generateNumber`: store a fresh draw. */
    method Generate(draw: Roll)
      requires Valid()
      modifies this
      ensures Valid() && State() == Next(old(State()), Event.Generate(draw))
      ensures prefersDark == old(prefersDark)
    {
      number := draw;
    }

    /** The interval callback, which exists only while the timer runs; it is
        `generateNumber` itself. */
    method Tick(draw: Roll)
      requires Valid() && Enabled(State(), Event.Tick(draw))
      modifies this
      ensures Valid() && State() == Next(old(State()), Event.Tick(draw))
      ensures prefersDark == old(prefersDark)
    {
      Generate(draw);
    }

    /** The play/pause button. */
    method TogglePlay()
      requires Valid()
      modifies this
      ensures Valid() && State() == Next(old(State()), Event.TogglePlay)
      ensures prefersDark == old(prefersDark)
    {
      isRunning := !isRunning;
    }

    /** The menu button. */
    method ToggleMenu()
      requires Valid()
      modifies this
      ensures Valid() && State() == Next(old(State()), Event.ToggleMenu)
      ensures prefersDark == old(prefersDark)
    {
      showMenu := !showMenu;
    }

    /** The menu's gauge item, present only while the menu is shown. */
    method ToggleGaugeItem()
      requires Valid() && Enabled(State(), Event.ToggleGauge)
      modifies this
      ensures Valid() && State() == Next(old(State()), Event.ToggleGauge)
      ensures prefersDark == old(prefersDark)
    {
      showGauge := !showGauge;
      showMenu := false;
    }

    /** A theme item of the menu, followed by the theme effect, which runs
        again only when the theme value changed. */
    method SelectThemeItem(key: Theme)
      requires Valid() && Enabled(State(), Event.SelectTheme(key))
      modifies this, root
      ensures Valid() && State() == Next(old(State()), Event.SelectTheme(key))
      ensures prefersDark == old(prefersDark)
      ensures root.classes == [ResolvedClass(key, prefersDark)]
    {
      var changed := key != theme;
      theme := key;
      showMenu := false;
      if changed {
        ApplyTheme();
      }
    }

    /** The document's mouse-down listener; `insideMenu` says whether the
        target lies within the menu container. */
    method MouseDown(insideMenu: bool)
      requires Valid()
      modifies this
      ensures Valid() && State() == Next(old(State()), Event.MouseDown(insideMenu))
      ensures prefersDark == old(prefersDark)
    {
      if showMenu && !insideMenu {
        showMenu := false;
      }
    }

    /** The operating system's preference changes to `matches`. The change
        listener is subscribed only while the theme is `System`, and then
        rewrites the root; otherwise the root keeps its class. */
    method PreferenceChanged(matches: bool)
      requires Valid()
      modifies this, root
      ensures Valid() && State() == old(State())
      ensures prefersDark == matches
      ensures theme != System ==> root.classes == old(root.classes)
    {
      prefersDark := matches;
      if theme == System {
        root.ClearClasses();
        root.AddClass(if matches then "dark" else "light");
      }
    }
  }
}
