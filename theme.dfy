/**
 * The appearance store of src/store/theme.ts: colour theme, the anti-gravity effect, font
 * size and three view switches. Each action overwrites or flips exactly one field.
 */
module ThemeStore {

  datatype Theme = Dark | Light

  /** The other theme. */
  function Other(t: Theme): (r: Theme)
    ensures r != t
  {
    if t == Dark then Light else Dark
  }

  lemma OtherInvolution(t: Theme)
    ensures Other(Other(t)) == t
  {
  }

  class Appearance {
    var theme: Theme
    var antiGravity: bool
    var fontSize: int
    var showMinimap: bool
    var showLineNumbers: bool
    var animations: bool

    /** Dark theme, anti-gravity on, 14 pixel font, minimap, line numbers and animations on. */
    constructor ()
      ensures theme == Dark && antiGravity && fontSize == 14
      ensures showMinimap && showLineNumbers && animations
    {
      theme := Dark;
      antiGravity := true;
      fontSize := 14;
      showMinimap := true;
      showLineNumbers := true;
      animations := true;
    }

    method ToggleTheme()
      modifies this`theme
      ensures theme == Other(old(theme)) && theme != old(theme)
    {
      theme := Other(theme);
    }

    method SetTheme(t: Theme)
      modifies this`theme
      ensures theme == t
    {
      theme := t;
    }

    method ToggleAntiGravity()
      modifies this`antiGravity
      ensures antiGravity == !old(antiGravity)
    {
      antiGravity := !antiGravity;
    }

    /** Stores the size as given, without any clamping. */
    method SetFontSize(size: int)
      modifies this`fontSize
      ensures fontSize == size
    {
      fontSize := size;
    }

    method ToggleMinimap()
      modifies this`showMinimap
      ensures showMinimap == !old(showMinimap)
    {
      showMinimap := !showMinimap;
    }

    method ToggleLineNumbers()
      modifies this`showLineNumbers
      ensures showLineNumbers == !old(showLineNumbers)
    {
      showLineNumbers := !showLineNumbers;
    }

    method ToggleAnimations()
      modifies this`animations
      ensures animations == !old(animations)
    {
      animations := !animations;
    }
  }

  /** Two theme toggles in a row restore the theme and touch nothing else. */
  method ToggleThemeTwice(a: Appearance)
    modifies a`theme
    ensures a.theme == old(a.theme)
  {
    a.ToggleTheme();
    a.ToggleTheme();
  }
}
