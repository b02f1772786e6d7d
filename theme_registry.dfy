/**
 * The theme registry: the palette mode held as state, the toggle that flips
 * it, and the colour-mode context value that components read.
 */
module ThemeMode {
  import opened Wrappers
  import opened DesignTokens

  /** The mode after one toggle: light becomes dark and dark becomes light. */
  function Toggled(m: Mode): (r: Mode)
    ensures r != m
    ensures m == Light ==> r == Dark
    ensures m == Dark ==> r == Light
  {
    if m == Light then Dark else Light
  }

  /** Toggling twice restores the mode, so toggling is its own inverse. */
  lemma ToggleTwice(m: Mode)
    ensures Toggled(Toggled(m)) == m
  {
  }

  /** Toggling `n` times. */
  function ToggledTimes(m: Mode, n: nat): Mode {
    if n == 0 then m else Toggled(ToggledTimes(m, n - 1))
  }

  /** After `n` toggles the mode is back where it started exactly when `n` is even. */
  lemma {:induction false} ToggleParity(m: Mode, n: nat)
    ensures ToggledTimes(m, n) == m <==> n % 2 == 0
  {
    if n > 0 {
      ToggleParity(m, n - 1);
    }
  }

  /** What the colour-mode context hands to a component: the current mode. */
  datatype ColorMode = ColorMode(mode: Mode)

  /** The provider: owns the mode state and exposes it through the context. */
  class ThemeRegistry {
    var mode: Mode

    /** A fresh provider starts in dark mode. */
    constructor()
      ensures mode == Dark
    {
      mode := Dark;
    }

    /** `toggleColorMode`: flip the mode in place. */
    method ToggleColorMode()
      modifies this`mode
      ensures mode == Toggled(old(mode))
    {
      mode := if mode == Light then Dark else Light;
    }

    /** The context value handed to consumers always carries the current mode. */
    function Value(): (v: ColorMode)
      reads this`mode
      ensures v.mode == mode
    {
      ColorMode(mode)
    }

    /** The tokens the provider's theme is built from follow the current mode. */
    function Theme(): (t: Tokens)
      reads this`mode
      ensures t.palette.mode == mode
    {
      GetDesignTokens(mode)
    }
  }

  /** The objects a context read or toggle may touch: the provider, if there is one. */
  function ProviderFrame(provider: Option<ThemeRegistry>): set<object> {
    if provider.Some? then {provider.value} else {}
  }

  /** The mode a component reads: the provider's mode, or light when no provider is above it. */
  function ContextMode(provider: Option<ThemeRegistry>): (m: Mode)
    reads ProviderFrame(provider)
    ensures provider.None? ==> m == Light
    ensures provider.Some? ==> m == provider.value.Value().mode
  {
    if provider.Some? then provider.value.mode else Light
  }

  /** The toggle a component calls: the provider's toggle, or a no-op when no provider is above it. */
  method ContextToggle(provider: Option<ThemeRegistry>)
    modifies ProviderFrame(provider)
    ensures provider.Some? ==> provider.value.mode == Toggled(old(provider.value.mode))
    ensures provider.None? ==> ContextMode(provider) == Light
  {
    if provider.Some? {
      provider.value.ToggleColorMode();
    }
  }

  /** A session: the page opens dark, one click makes it light, a second click dark again. */
  method ToggleSession() returns (first: Mode, second: Mode, third: Mode)
    ensures first == Dark && second == Light && third == Dark
  {
    var registry := new ThemeRegistry();
    first := ContextMode(Some(registry));
    ContextToggle(Some(registry));
    second := ContextMode(Some(registry));
    ContextToggle(Some(registry));
    third := ContextMode(Some(registry));
  }
}
