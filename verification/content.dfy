/** The entry screen's view model: whether the map is shown. */
module Entry {

  class ContentViewModel {
    var displayMap: bool

    constructor ()
      ensures !displayMap
    {
      displayMap := false;
    }

    method ToggleMap()
      modifies this`displayMap
      ensures displayMap == !old(displayMap)
    {
      displayMap := !displayMap;
    }
  }

  /**
   * `displayMap` after `n` successive calls of `ToggleMap` starting from `start`: each call
   * negates the value, which is one step of this recursion.
   */
  function AfterToggles(start: bool, n: nat): bool {
    if n == 0 then start else !AfterToggles(start, n - 1)
  }

  /** After `n` toggles the value has flipped exactly when `n` is odd. */
  lemma {:induction false} TogglesParity(start: bool, n: nat)
    ensures AfterToggles(start, n) == (start != (n % 2 == 1))
  {
    if n > 0 {
      TogglesParity(start, n - 1);
    }
  }

  /** From the initial state, the map is displayed after `n` toggles exactly when `n` is odd. */
  lemma DisplayedAfterOddToggles(n: nat)
    ensures AfterToggles(false, n) <==> n % 2 == 1
  {
    TogglesParity(false, n);
  }

  /** Two consecutive toggles restore any state. */
  lemma {:induction false} ToggleTwiceRestores(start: bool, n: nat)
    ensures AfterToggles(start, n + 2) == AfterToggles(start, n)
  {
    TogglesParity(start, n);
    TogglesParity(start, n + 2);
  }
}
