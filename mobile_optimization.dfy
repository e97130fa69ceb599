/**
 * Device and animation-level classification (src/lib/mobile-optimization.ts).
 * Every predicate reads the browser's ambient state; here that state is an
 * explicit snapshot, with `NoWindow` standing for server-side rendering.
 */
module MobileOptimization {
  import opened Strings

  datatype Env =
    | NoWindow
    | Window(innerWidth: int, userAgent: string, prefersReducedMotion: bool)

  /** The alternatives of the user-agent pattern, matched case-insensitively. */
  const MobileTokens: seq<string> :=
    ["Android", "webOS", "iPhone", "iPad", "iPod", "BlackBerry", "IEMobile", "Opera Mini"]

  /** `/Android|webOS|iPhone|iPad|iPod|BlackBerry|IEMobile|Opera Mini/i.test(userAgent)` */
  predicate HasMobileToken(userAgent: string) {
    exists i :: 0 <= i < |MobileTokens| && ContainsIgnoreCase(userAgent, MobileTokens[i])
  }

  /** `isMobile`: false without a window, and true for every window narrower than 768. */
  predicate IsMobile(env: Env): (b: bool)
    ensures env.NoWindow? ==> !b
    ensures env.Window? && env.innerWidth < 768 ==> b
  {
    match env
    case NoWindow => false
    case Window(width, ua, _) => width < 768 || HasMobileToken(ua)
  }

  /** `isDesktop`: never mobile, and with a window at least 1024 wide. */
  predicate IsDesktop(env: Env): (b: bool)
    ensures env.NoWindow? ==> b
    ensures b ==> !IsMobile(env)
    ensures b && env.Window? ==> env.innerWidth >= 1024
  {
    match env
    case NoWindow => true
    case Window(width, _, _) => width >= 1024 && !IsMobile(env)
  }

  /** `prefersReducedMotion`: the media query's answer, and false without a window. */
  predicate PrefersReducedMotion(env: Env): (b: bool)
    ensures env.NoWindow? ==> !b
    ensures env.Window? ==> (b <==> env.prefersReducedMotion)
  {
    match env
    case NoWindow => false
    case Window(_, _, reduce) => reduce
  }

  /** `shouldReduceAnimations`: every mobile device and every reduced-motion preference. */
  predicate ShouldReduceAnimations(env: Env): (b: bool)
    ensures IsMobile(env) ==> b
    ensures PrefersReducedMotion(env) ==> b
    ensures b && IsDesktop(env) ==> PrefersReducedMotion(env)
  {
    IsMobile(env) || PrefersReducedMotion(env)
  }

  /** `shouldEnableHighEndAnimations`: desktop only, never together with reduced animations. */
  predicate ShouldEnableHighEndAnimations(env: Env): (b: bool)
    ensures b ==> IsDesktop(env) && !IsMobile(env)
    ensures b ==> !ShouldReduceAnimations(env)
  {
    IsDesktop(env) && !PrefersReducedMotion(env)
  }

  /**
   * With a window: mobile exactly when narrower than 768 or a mobile token is in
   * the user agent; the letter case of the user agent does not matter, and a
   * narrower window with the same user agent is mobile too.
   */
  lemma IsMobileIff(width: int, ua: string, reduce: bool)
    ensures IsMobile(Window(width, ua, reduce)) <==>
      width < 768 || exists i :: 0 <= i < |MobileTokens| && ContainsIgnoreCase(ua, MobileTokens[i])
    ensures forall ua2 :: Lower(ua2) == Lower(ua) ==>
      (IsMobile(Window(width, ua2, reduce)) <==> IsMobile(Window(width, ua, reduce)))
    ensures forall w :: w <= width && IsMobile(Window(width, ua, reduce)) ==> IsMobile(Window(w, ua, reduce))
  {
  }

  /** Without a window (server rendering): not mobile, desktop, no reduced motion, full animations. */
  lemma NoWindowDefaults()
    ensures !IsMobile(NoWindow) && IsDesktop(NoWindow) && !PrefersReducedMotion(NoWindow)
    ensures ShouldEnableHighEndAnimations(NoWindow) && !ShouldReduceAnimations(NoWindow)
  {
  }

  /** Desktop means at least 1024 wide and not mobile; the two are never both true. */
  lemma DesktopExcludesMobile(env: Env)
    ensures env.Window? ==> (IsDesktop(env) <==> env.innerWidth >= 1024 && !IsMobile(env))
    ensures !(IsDesktop(env) && IsMobile(env))
  {
  }

  /** High-end and reduced animations are never selected together. */
  lemma AnimationModesExclusive(env: Env)
    ensures ShouldReduceAnimations(env) <==> IsMobile(env) || PrefersReducedMotion(env)
    ensures ShouldEnableHighEndAnimations(env) <==> IsDesktop(env) && !PrefersReducedMotion(env)
    ensures !(ShouldEnableHighEndAnimations(env) && ShouldReduceAnimations(env))
  {
  }

  /** A tablet-sized window with a non-mobile user agent is neither mobile nor desktop. */
  lemma TabletGap(width: int, ua: string, reduce: bool)
    requires 768 <= width < 1024 && !HasMobileToken(ua)
    ensures var env := Window(width, ua, reduce);
      !IsMobile(env) && !IsDesktop(env)
      && (!reduce ==> !ShouldReduceAnimations(env) && !ShouldEnableHighEndAnimations(env))
  {
  }

  /** Width 500 is mobile whatever the user agent. */
  lemma NarrowIsMobile(ua: string, reduce: bool)
    ensures IsMobile(Window(500, ua, reduce)) && ShouldReduceAnimations(Window(500, ua, reduce))
  {
  }

  /** Width 1200 with a desktop user agent is high-end exactly when motion is not reduced. */
  lemma WideDesktopHighEnd(ua: string, reduce: bool)
    requires !HasMobileToken(ua)
    ensures ShouldEnableHighEndAnimations(Window(1200, ua, reduce)) <==> !reduce
  {
  }

  /** Every mobile token has a `b`, a `d` or a `p`, so a user agent without those letters has none. */
  lemma NoTokenWithoutBDP(ua: string)
    requires 'b' !in ua && 'B' !in ua && 'd' !in ua && 'D' !in ua && 'p' !in ua && 'P' !in ua
    ensures !HasMobileToken(ua)
  {
    LetterMissingFromLower(ua, 'd');
    LetterMissingFromLower(ua, 'b');
    LetterMissingFromLower(ua, 'p');
    var lower := Lower(ua);
    var missing := ['d', 'b', 'p', 'd', 'd', 'b', 'b', 'p'];
    var at := [2, 2, 1, 3, 3, 0, 4, 1];
    forall i | 0 <= i < |MobileTokens|
      ensures !ContainsIgnoreCase(ua, MobileTokens[i])
    {
      assert Lower(MobileTokens[i])[at[i]] == missing[i];
      MissingCharNotContained(lower, Lower(MobileTokens[i]), missing[i]);
    }
  }

  /** A typical desktop user agent carries none of the mobile tokens. */
  lemma DesktopUserAgentExample()
    ensures !HasMobileToken("Mozilla/5.0")
  {
    NoTokenWithoutBDP("Mozilla/5.0");
  }
}
