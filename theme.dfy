/**
 * The theme utilities: the two colour themes, choosing the current theme from
 * storage and the system preference, writing a theme into CSS variables on the
 * document root, toggling, and reacting to a system preference change.
 */
module Theme {
  import opened Wrappers
  import Browser

  /** The storage key the chosen theme is kept under. */
  const THEME_KEY: string := "theme"
  const SYSTEM: string := "system"

  datatype ThemeName = Light | Dark

  function NameOf(t: ThemeName): (r: string)
    ensures r == "light" || r == "dark"
  {
    match t
    case Light => "light"
    case Dark => "dark"
  }

  /** A colour entry: a flat colour, or a group of named colours (the text colours). */
  datatype ColorValue = Flat(color: string) | Nested(shades: seq<(string, string)>)

  /** A theme's entries, in the order `Object.entries` lists them. */
  datatype ThemeDef = ThemeDef(name: string, colors: seq<(string, ColorValue)>, shadows: seq<(string, string)>)

  const LIGHT_THEME: ThemeDef := ThemeDef("light",
    [("primary", Flat("#3B82F6")), ("secondary", Flat("#6B7280")), ("accent", Flat("#10B981")),
     ("background", Flat("#FFFFFF")), ("surface", Flat("#F9FAFB")),
     ("text", Nested([("primary", "#111827"), ("secondary", "#6B7280"), ("muted", "#9CA3AF")])),
     ("border", Flat("#E5E7EB")), ("error", Flat("#EF4444")), ("warning", Flat("#F59E0B")),
     ("success", Flat("#10B981")), ("info", Flat("#3B82F6"))],
    [("sm", "0 1px 2px 0 rgb(0 0 0 / 0.05)"),
     ("md", "0 4px 6px -1px rgb(0 0 0 / 0.1), 0 2px 4px -2px rgb(0 0 0 / 0.1)"),
     ("lg", "0 10px 15px -3px rgb(0 0 0 / 0.1), 0 4px 6px -4px rgb(0 0 0 / 0.1)"),
     ("xl", "0 20px 25px -5px rgb(0 0 0 / 0.1), 0 8px 10px -6px rgb(0 0 0 / 0.1)")])

  const DARK_THEME: ThemeDef := ThemeDef("dark",
    [("primary", Flat("#60A5FA")), ("secondary", Flat("#9CA3AF")), ("accent", Flat("#34D399")),
     ("background", Flat("#111827")), ("surface", Flat("#1F2937")),
     ("text", Nested([("primary", "#F9FAFB"), ("secondary", "#D1D5DB"), ("muted", "#9CA3AF")])),
     ("border", Flat("#374151")), ("error", Flat("#F87171")), ("warning", Flat("#FBBF24")),
     ("success", Flat("#34D399")), ("info", Flat("#60A5FA"))],
    [("sm", "0 1px 2px 0 rgb(0 0 0 / 0.3)"),
     ("md", "0 4px 6px -1px rgb(0 0 0 / 0.3), 0 2px 4px -2px rgb(0 0 0 / 0.3)"),
     ("lg", "0 10px 15px -3px rgb(0 0 0 / 0.3), 0 4px 6px -4px rgb(0 0 0 / 0.3)"),
     ("xl", "0 20px 25px -5px rgb(0 0 0 / 0.3), 0 8px 10px -6px rgb(0 0 0 / 0.3)")])

  /** `themes[name]`. */
  function ThemeOf(t: ThemeName): (r: ThemeDef)
    ensures r.name == NameOf(t)
  {
    match t
    case Light => LIGHT_THEME
    case Dark => DARK_THEME
  }

  // ---------------------------------------------------------------------------
  // Choosing and toggling
  // ---------------------------------------------------------------------------

  /**
   * `getCurrentTheme`: a stored value other than `'system'` is returned as
   * stored (the source only casts it); otherwise the system preference.
   */
  function CurrentTheme(saved: Option<string>, systemDark: bool): (r: string)
    ensures Truthy(saved) && saved.value != SYSTEM ==> r == saved.value
    ensures !(Truthy(saved) && saved.value != SYSTEM) ==> r == NameOf(if systemDark then Dark else Light)
  {
    if Truthy(saved) && saved.value != SYSTEM then saved.value
    else NameOf(if systemDark then Dark else Light)
  }

  /** The theme `toggleTheme` switches to from `current`. */
  function Toggled(current: string): (r: ThemeName)
    ensures r == Dark <==> current == "light"
  {
    if current == "light" then Dark else Light
  }

  /**
   * Two toggles in a row: the second reads back what the first stored, so the
   * stored theme returns to the one current before the first toggle whenever
   * that was light or dark; any other stored value ends as dark.
   */
  lemma DoubleToggle(current: string, systemDark: bool)
    ensures var first := NameOf(Toggled(current));
            var second := NameOf(Toggled(CurrentTheme(Some(first), systemDark)));
            (current == "light" || current == "dark" ==> second == current)
            && (current != "light" && current != "dark" ==> second == "dark")
  {
  }

  /** Whether a system preference change is applied: nothing or `'system'` stored. */
  predicate FollowsSystem(saved: Option<string>)
  {
    !Truthy(saved) || saved.value == SYSTEM
  }

  /** Following the system is exactly the case in which the current theme is the system's. */
  lemma FollowsSystemMeansSystemTheme(saved: Option<string>, systemDark: bool)
    ensures FollowsSystem(saved) <==> !(Truthy(saved) && saved.value != SYSTEM)
    ensures FollowsSystem(saved) ==> CurrentTheme(saved, systemDark) == NameOf(if systemDark then Dark else Light)
  {
  }

  // ---------------------------------------------------------------------------
  // CSS variables
  // ---------------------------------------------------------------------------

  /** The properties set for one colour entry. */
  function EntryVars(key: string, v: ColorValue): seq<(string, string)>
  {
    match v
    case Flat(c) => [("--color-" + key, c)]
    case Nested(shades) => ShadeVars(key, shades)
  }

  /** `--color-<key>-<sub>` for each shade of a group. */
  function ShadeVars(key: string, shades: seq<(string, string)>): (r: seq<(string, string)>)
    ensures |r| == |shades|
    ensures forall j :: 0 <= j < |shades| ==> r[j] == ("--color-" + key + "-" + shades[j].0, shades[j].1)
  {
    if shades == [] then []
    else ShadeVars(key, shades[..|shades| - 1]) + [("--color-" + key + "-" + shades[|shades| - 1].0, shades[|shades| - 1].1)]
  }

  function ColorVars(colors: seq<(string, ColorValue)>): seq<(string, string)>
  {
    if colors == [] then []
    else ColorVars(colors[..|colors| - 1]) + EntryVars(colors[|colors| - 1].0, colors[|colors| - 1].1)
  }

  function ShadowVars(shadows: seq<(string, string)>): (r: seq<(string, string)>)
    ensures |r| == |shadows|
    ensures forall j :: 0 <= j < |shadows| ==> r[j] == ("--shadow-" + shadows[j].0, shadows[j].1)
  {
    if shadows == [] then []
    else ShadowVars(shadows[..|shadows| - 1]) + [("--shadow-" + shadows[|shadows| - 1].0, shadows[|shadows| - 1].1)]
  }

  /** Every property `applyTheme` sets, in the order it sets them. */
  function ThemeVars(t: ThemeDef): seq<(string, string)>
  {
    ColorVars(t.colors) + ShadowVars(t.shadows)
  }

  /** The style after setting each property in turn; a later setting of a name wins. */
  function SetAll(style: map<string, string>, props: seq<(string, string)>): map<string, string>
  {
    if props == [] then style
    else SetAll(style, props[..|props| - 1])[props[|props| - 1].0 := props[|props| - 1].1]
  }

  lemma SetAllSnoc(style: map<string, string>, props: seq<(string, string)>, p: (string, string))
    ensures SetAll(style, props + [p]) == SetAll(style, props)[p.0 := p.1]
  {
    assert (props + [p])[..|props|] == props;
  }

  /**
   * After setting a list of properties, a property keeps the last value it
   * was given, and a name never set keeps its old value.
   */
  lemma {:induction false} SetAllLastWins(style: map<string, string>, props: seq<(string, string)>, name: string)
    ensures var r := SetAll(style, props);
            (forall j :: 0 <= j < |props| ==> props[j].0 != name) ==> (name in r <==> name in style) && (name in style ==> r[name] == style[name])
    ensures forall i :: 0 <= i < |props| && props[i].0 == name && (forall j :: i < j < |props| ==> props[j].0 != name) ==>
              name in SetAll(style, props) && SetAll(style, props)[name] == props[i].1
  {
    if props != [] {
      var init := props[..|props| - 1];
      SetAllLastWins(style, init, name);
      forall i | 0 <= i < |props| && props[i].0 == name && (forall j :: i < j < |props| ==> props[j].0 != name)
        ensures name in SetAll(style, props) && SetAll(style, props)[name] == props[i].1
      {
        if i < |props| - 1 {
          assert init[i] == props[i];
          assert forall j :: i < j < |init| ==> init[j] == props[j];
        }
      }
    }
  }

  /**
   * The naming scheme: each flat colour `k` is set as `--color-<k>`, each
   * shade `s` of a group `k` as `--color-<k>-<s>`, and each shadow `k` as
   * `--shadow-<k>`, each with its own value.
   */
  lemma {:induction false} ColorVarNaming(colors: seq<(string, ColorValue)>)
    ensures forall i :: 0 <= i < |colors| && colors[i].1.Flat? ==>
              ("--color-" + colors[i].0, colors[i].1.color) in ColorVars(colors)
    ensures forall i, j :: 0 <= i < |colors| && colors[i].1.Nested? && 0 <= j < |colors[i].1.shades| ==>
              ("--color-" + colors[i].0 + "-" + colors[i].1.shades[j].0, colors[i].1.shades[j].1) in ColorVars(colors)
  {
    if colors != [] {
      var init := colors[..|colors| - 1];
      var last := colors[|colors| - 1];
      ColorVarNaming(init);
      assert ColorVars(colors) == ColorVars(init) + EntryVars(last.0, last.1);
      forall i | 0 <= i < |colors| && colors[i].1.Flat?
        ensures ("--color-" + colors[i].0, colors[i].1.color) in ColorVars(colors)
      {
        if i < |colors| - 1 {
          assert init[i] == colors[i];
        } else {
          assert EntryVars(last.0, last.1)[0] == ("--color-" + colors[i].0, colors[i].1.color);
        }
      }
      forall i, j | 0 <= i < |colors| && colors[i].1.Nested? && 0 <= j < |colors[i].1.shades|
        ensures ("--color-" + colors[i].0 + "-" + colors[i].1.shades[j].0, colors[i].1.shades[j].1) in ColorVars(colors)
      {
        if i < |colors| - 1 {
          assert init[i] == colors[i];
        } else {
          assert EntryVars(last.0, last.1)[j] == ("--color-" + colors[i].0 + "-" + colors[i].1.shades[j].0, colors[i].1.shades[j].1);
        }
      }
    }
  }

  /** Every shadow is set as `--shadow-<k>` with its own value, after the colours. */
  lemma ShadowVarNaming(t: ThemeDef)
    ensures forall i :: 0 <= i < |t.shadows| ==>
              ThemeVars(t)[|ColorVars(t.colors)| + i] == ("--shadow-" + t.shadows[i].0, t.shadows[i].1)
  {
  }

  /** Setting two lists of properties one after the other. */
  lemma {:induction false} SetAllAppend(style: map<string, string>, a: seq<(string, string)>, b: seq<(string, string)>)
    ensures SetAll(style, a + b) == SetAll(SetAll(style, a), b)
    decreases |b|
  {
    if b == [] {
      assert a + b == a;
    } else {
      var init := b[..|b| - 1];
      assert (a + b)[..|a + b| - 1] == a + init;
      SetAllAppend(style, a, init);
    }
  }

  /** Sets each `(name, value)` of `props` on the root, in order. */
  method SetProperties(root: Browser.DocumentRoot, props: seq<(string, string)>)
    modifies root`style
    ensures root.style == SetAll(old(root.style), props)
  {
    for i := 0 to |props|
      invariant root.style == SetAll(old(root.style), props[..i])
    {
      SetAllSnoc(old(root.style), props[..i], props[i]);
      assert props[..i + 1] == props[..i] + [props[i]];
      root.SetProperty(props[i].0, props[i].1);
    }
    assert props[..|props|] == props;
  }

  /** The colour loop of `applyTheme`: each entry, flat or grouped, in turn. */
  method SetColors(root: Browser.DocumentRoot, colors: seq<(string, ColorValue)>)
    modifies root`style
    ensures root.style == SetAll(old(root.style), ColorVars(colors))
  {
    for i := 0 to |colors|
      invariant root.style == SetAll(old(root.style), ColorVars(colors[..i]))
    {
      assert colors[..i + 1][..i] == colors[..i];
      var (key, value) := colors[i];
      SetAllAppend(old(root.style), ColorVars(colors[..i]), EntryVars(key, value));
      match value
      case Flat(c) =>
        root.SetProperty("--color-" + key, c);
      case Nested(shades) =>
        SetProperties(root, ShadeVars(key, shades));
    }
    assert colors[..|colors|] == colors;
  }

  /**
   * `applyTheme`: sets every colour and shadow property in entry order and
   * then `data-theme` to the theme's name; nothing else on the root changes.
   */
  method ApplyTheme(root: Browser.DocumentRoot, t: ThemeName)
    modifies root
    ensures root.style == SetAll(old(root.style), ThemeVars(ThemeOf(t)))
    ensures root.attributes == old(root.attributes)["data-theme" := NameOf(t)]
  {
    var theme := ThemeOf(t);
    SetColors(root, theme.colors);
    SetProperties(root, ShadowVars(theme.shadows));
    SetAllAppend(old(root.style), ColorVars(theme.colors), ShadowVars(theme.shadows));
    root.SetAttribute("data-theme", NameOf(t));
  }

  /**
   * `toggleTheme`: flips the current theme (the stored one, else the system
   * preference), applies it, stores it under `'theme'` and returns it.
   */
  method ToggleTheme(storage: Browser.LocalStorage, root: Browser.DocumentRoot, systemDark: bool) returns (newTheme: ThemeName)
    modifies storage, root
    ensures newTheme == Toggled(CurrentTheme(old(storage.GetItem(THEME_KEY)), systemDark))
    ensures storage.items == old(storage.items)[THEME_KEY := NameOf(newTheme)]
    ensures root.style == SetAll(old(root.style), ThemeVars(ThemeOf(newTheme)))
    ensures root.attributes == old(root.attributes)["data-theme" := NameOf(newTheme)]
  {
    var current := CurrentTheme(storage.GetItem(THEME_KEY), systemDark);
    newTheme := Toggled(current);
    ApplyTheme(root, newTheme);
    storage.SetItem(THEME_KEY, NameOf(newTheme));
  }

  /**
   * The `watchSystemTheme` handler: when the stored choice follows the
   * system, the new preference is applied and reported to the callback
   * (`reported`); otherwise nothing happens.
   */
  method OnSystemThemeChange(storage: Browser.LocalStorage, root: Browser.DocumentRoot, matchesDark: bool)
    returns (reported: Option<ThemeName>)
    modifies root
    ensures FollowsSystem(storage.GetItem(THEME_KEY)) <==> reported.Some?
    ensures reported.Some? ==> reported.value == (if matchesDark then Dark else Light)
    ensures reported.Some? ==> root.style == SetAll(old(root.style), ThemeVars(ThemeOf(reported.value)))
                               && root.attributes == old(root.attributes)["data-theme" := NameOf(reported.value)]
    ensures reported.None? ==> root.style == old(root.style) && root.attributes == old(root.attributes)
  {
    var saved := storage.GetItem(THEME_KEY);
    if FollowsSystem(saved) {
      var t := if matchesDark then Dark else Light;
      ApplyTheme(root, t);
      reported := Some(t);
    } else {
      reported := None;
    }
  }
}
