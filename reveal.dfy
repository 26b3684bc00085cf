/** The typewriter effect of the `Line` component: a banner entry is revealed one
    character per timer tick; every other entry is shown whole at once. The interval
    timer is replaced by explicit calls of `Tick`, and clearing it by the flag `stopped`. */
module Reveal {
  import opened Text

  /** An entry gets the typewriter effect when it starts with `┌` or `Welcome`. */
  predicate IsBanner(text: string) {
    StartsWith(text, "┌") || StartsWith(text, "Welcome")
  }

  /** An entry whose first character is neither `┌` nor `W` is shown at once. */
  lemma NotBannerByFirstChar(text: string)
    requires text == [] || (text[0] != '┌' && text[0] != 'W')
    ensures !IsBanner(text)
  {
    if text != [] {
      assert text[..1][0] == text[0];
    }
  }

  /** The reveal state of one rendered entry. */
  class LineView {
    const text: string
    const banner: bool
    /** The tick counter `i`. */
    var ticks: nat
    /** The visible text `out`. */
    var shown: string
    /** Whether the interval has been cleared (or was never started). */
    var stopped: bool

    ghost predicate Valid()
      reads this
    {
      banner == IsBanner(text)
      && (banner ==> ticks <= |text| && shown == text[..ticks] && (ticks == |text| ==> stopped))
      && (!banner ==> shown == text && stopped)
    }

    /** Mounting: a banner starts empty with its timer running; anything else starts
        whole, with no timer. */
    constructor (text: string)
      ensures Valid() && this.text == text && ticks == 0
      ensures shown == (if IsBanner(text) then "" else text)
      ensures stopped == !IsBanner(text)
    {
      this.text := text;
      banner := IsBanner(text);
      ticks := 0;
      shown := if IsBanner(text) then "" else text;
      stopped := !IsBanner(text);
      if IsBanner(text) {
        assert |text| > 0;
      }
    }

    /** One firing of the interval: count, show that many characters, and clear
        the interval once the whole text is shown. A cleared interval no longer fires. */
    method Tick()
      requires Valid()
      modifies this
      ensures Valid()
      ensures old(stopped) ==> ticks == old(ticks) && shown == old(shown) && stopped
      ensures !old(stopped) ==> ticks == old(ticks) + 1 && shown == text[..ticks]
      ensures !old(stopped) ==> |shown| == |old(shown)| + 1 && stopped == (ticks == |text|)
    {
      if stopped {
        return;
      }
      ticks := ticks + 1;
      shown := text[..if ticks <= |text| then ticks else |text|];
      if ticks >= |text| {
        stopped := true;
      }
    }

    /** Unmounting: the cleanup clears the interval. */
    method Dispose()
      requires Valid()
      modifies this
      ensures Valid() && stopped && ticks == old(ticks) && shown == old(shown)
    {
      stopped := true;
    }

    /** `n` firings of the interval in a row. */
    method Advance(n: nat)
      requires Valid()
      modifies this
      ensures Valid()
      ensures old(stopped) ==> stopped && ticks == old(ticks) && shown == old(shown)
      ensures !old(stopped) ==> ticks == (if old(ticks) + n <= |text| then old(ticks) + n else |text|)
      ensures !old(stopped) ==> shown == text[..ticks] && (stopped <==> ticks == |text|)
    {
      var k := 0;
      while k < n
        invariant Valid() && 0 <= k <= n
        invariant old(stopped) ==> stopped && ticks == old(ticks) && shown == old(shown)
        invariant !old(stopped) ==> banner && shown == text[..ticks] && (stopped <==> ticks == |text|)
        invariant !old(stopped) ==> ticks == (if old(ticks) + k <= |text| then old(ticks) + k else |text|)
      {
        Tick();
        k := k + 1;
      }
    }
  }

  /** A banner mounted and left to run for `n` ticks shows its first `n` characters
      (all of them once `n` reaches its length), and its timer is cleared exactly when
      the whole text is shown. */
  method RunBanner(text: string, n: nat) returns (shown: string, stopped: bool)
    requires IsBanner(text)
    ensures var m := if n <= |text| then n else |text|; shown == text[..m] && |shown| == m
    ensures stopped <==> n >= |text|
    ensures n >= |text| ==> shown == text
  {
    var view := new LineView(text);
    view.Advance(n);
    shown, stopped := view.shown, view.stopped;
    assert n >= |text| ==> shown == text[..|text|];
  }

  /** A non-banner entry is whole from the moment it is mounted, with no timer. */
  method ShowPlain(text: string) returns (shown: string, stopped: bool)
    requires !IsBanner(text)
    ensures shown == text && stopped
  {
    var view := new LineView(text);
    shown, stopped := view.shown, view.stopped;
  }
}
