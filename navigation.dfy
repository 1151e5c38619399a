/** The navigation history of the app: a stack of screens, most recent
    last, that is never empty. */
module Navigation {
  import opened Domain

  /** The screen on show: the top of the stack. */
  function Current(h: seq<Screen>): Screen
    requires |h| > 0
  {
    h[|h| - 1]
  }

  predicate CanGoBack(h: seq<Screen>) {
    |h| > 1
  }

  /** `navigateTo`: the old history stays as a prefix and `s` is on top. */
  function Push(h: seq<Screen>, s: Screen): (r: seq<Screen>)
    ensures |r| == |h| + 1 && h < r
    ensures Current(r) == s
  {
    h + [s]
  }

  /** `navigateBack`: drop the top screen, but only while another lies
      beneath it. */
  function Pop(h: seq<Screen>): (r: seq<Screen>)
    ensures r <= h
    ensures |h| > 0 ==> |r| > 0
    ensures |r| == |h| <==> !CanGoBack(h)
    ensures CanGoBack(h) ==> |r| == |h| - 1
  {
    if CanGoBack(h) then h[..|h| - 1] else h
  }

  /** Going back after going forward returns to the same history. */
  lemma PopPush(h: seq<Screen>, s: Screen)
    requires |h| > 0
    ensures Pop(Push(h, s)) == h
  {
    assert Push(h, s)[..|h|] == h;
  }

  /** Going back shows the screen beneath the top one. */
  lemma CurrentAfterPop(h: seq<Screen>)
    requires CanGoBack(h)
    ensures Current(Pop(h)) == h[|h| - 2]
  {
  }

  /** `n` presses of the back button. */
  function BackTimes(h: seq<Screen>, n: nat): seq<Screen>
  {
    if n == 0 then h else BackTimes(Pop(h), n - 1)
  }

  function Max(a: int, b: int): int {
    if a >= b then a else b
  }

  /** However often the user goes back, the first screen of a non-empty
      history is never removed: n presses leave the first max(1, |h| - n)
      screens. */
  lemma {:induction false} BackTimesKeepsRoot(h: seq<Screen>, n: nat)
    requires |h| > 0
    ensures BackTimes(h, n) == h[..Max(1, |h| - n)]
    ensures |BackTimes(h, n)| > 0 && BackTimes(h, n)[0] == h[0]
  {
    if n == 0 {
      assert h[..|h|] == h;
    } else {
      var p := Pop(h);
      BackTimesKeepsRoot(p, n - 1);
      if CanGoBack(h) {
        assert p[..Max(1, |p| - (n - 1))] == h[..Max(1, |h| - n)];
      } else {
        assert h[..1] == h;
      }
    }
  }
}
