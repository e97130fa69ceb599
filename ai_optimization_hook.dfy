/**
 * The `useAIOptimization` hook (src/hooks/useAIOptimization.ts): the sliding
 * window of the last ten scroll positions, the behaviour snapshot taken before
 * unload, and the `isOptimizing` / `optimization` state around a call to the
 * optimisation endpoint. The call itself is split into its start and its end;
 * the endpoint's answer is a parameter of the end.
 */
module AIOptimizationHook {
  import opened Wrappers
  import MobileOptimization
  import Fn = AIOptimizationFunction

  /** How many scroll positions the window keeps. */
  const WindowSize: nat := 10

  datatype DeviceInfo = DeviceInfo(isMobile: bool, connection: string, memory: Option<int>)

  datatype UserBehavior = UserBehavior(scrollPattern: seq<int>, timeOnPage: int, deviceInfo: DeviceInfo)

  /** What `supabase.functions.invoke` resolves to: the endpoint's success body, or an error. */
  datatype InvokeOutcome = Returned(data: Fn.SuccessData) | InvokeError

  /** One `handleScroll`: push the position, then shift the oldest off when over ten. */
  function ScrollPush(positions: seq<int>, y: int): (r: seq<int>)
    ensures |r| > 0 && r[|r| - 1] == y
    ensures |positions| <= WindowSize ==> |r| <= WindowSize
    ensures |r| >= |positions|
  {
    var pushed := positions + [y];
    if |pushed| > WindowSize then pushed[1..] else pushed
  }

  /** The window after scroll events at `ys`, in arrival order, starting empty. */
  function Replay(ys: seq<int>): seq<int>
    decreases |ys|
  {
    if ys == [] then [] else ScrollPush(Replay(ys[..|ys| - 1]), ys[|ys| - 1])
  }

  /** The last `min(|s|, n)` elements of `s`. */
  function LastN(s: seq<int>, n: nat): (r: seq<int>)
    ensures |r| <= n && |r| <= |s|
  {
    if |s| <= n then s else s[|s| - n..]
  }

  /** One scroll event keeps the window equal to the last ten positions seen. */
  lemma ScrollPushKeepsLastTen(history: seq<int>, y: int)
    ensures ScrollPush(LastN(history, WindowSize), y) == LastN(history + [y], WindowSize)
  {
    var h := history + [y];
    if |history| >= WindowSize {
      assert LastN(history, WindowSize) + [y] == h[|h| - WindowSize - 1..];
    }
  }

  /**
   * After any scroll events the window holds the last `min(n, 10)` positions in
   * arrival order: the newest last, the oldest dropped first.
   */
  lemma {:induction false} ReplayIsLastTen(ys: seq<int>)
    ensures Replay(ys) == LastN(ys, WindowSize)
    ensures |Replay(ys)| <= WindowSize
    decreases |ys|
  {
    if ys != [] {
      var init := ys[..|ys| - 1];
      ReplayIsLastTen(init);
      ScrollPushKeepsLastTen(init, ys[|ys| - 1]);
      assert init + [ys[|ys| - 1]] == ys;
    }
  }

  /** Each event adds exactly one position; one is removed only when the window was full. */
  lemma ScrollPushShape(positions: seq<int>, y: int)
    requires |positions| <= WindowSize
    ensures var r := ScrollPush(positions, y);
      && r[|r| - 1] == y
      && (|positions| < WindowSize ==> r == positions + [y])
      && (|positions| == WindowSize ==> r == positions[1..] + [y])
  {
  }

  /** The hook's initial `deviceInfo.isMobile` reads the user agent only, never the width. */
  lemma InitialMobileIgnoresWidth(ua: string, width: int, reduce: bool)
    ensures (width >= 768 ==>
      (MobileOptimization.IsMobile(MobileOptimization.Window(width, ua, reduce)) <==> MobileOptimization.HasMobileToken(ua)))
    ensures width < 768 && !MobileOptimization.HasMobileToken(ua) ==>
      MobileOptimization.IsMobile(MobileOptimization.Window(width, ua, reduce))
  {
  }

  /** The behaviour as the request body carries it to the endpoint. */
  function AsSent(ub: UserBehavior): Fn.UserBehavior {
    Fn.UserBehavior(Some(ub.scrollPattern), Some(ub.timeOnPage),
      Fn.Given(Fn.DeviceInfo(ub.deviceInfo.isMobile, Some(ub.deviceInfo.connection), ub.deviceInfo.memory)))
  }

  class AIOptimizationState {
    var userBehavior: UserBehavior
    var optimization: Option<Fn.Optimization>
    var isOptimizing: bool
    /** The `Date.now()` the tracking effect took when it started. */
    var startTime: int
    /** The effect's local `scrollPositions` array. */
    var scrollPositions: seq<int>

    /** Every scroll position seen so far, oldest first. */
    ghost var scrollHistory: seq<int>
    /** How many calls of `optimizeWithAI` have started and not finished. */
    ghost var inFlight: nat

    ghost predicate Valid()
      reads this
    {
      && scrollPositions == LastN(scrollHistory, WindowSize)
      && (isOptimizing ==> inFlight > 0)
    }

    /** The first render and the tracking effect, with the navigator's values as parameters. */
    constructor (userAgent: string, effectiveType: Option<string>, deviceMemory: Option<int>, now: int)
      ensures Valid() && scrollPositions == [] && scrollHistory == [] && inFlight == 0
      ensures userBehavior == UserBehavior([], 0, DeviceInfo(
        MobileOptimization.HasMobileToken(userAgent),
        if effectiveType.GetOr("") == "" then "unknown" else effectiveType.value,
        deviceMemory))
      ensures optimization == None && !isOptimizing && startTime == now
    {
      var connection := effectiveType.GetOr("");
      userBehavior := UserBehavior([], 0, DeviceInfo(
        MobileOptimization.HasMobileToken(userAgent),
        if connection == "" then "unknown" else connection,
        deviceMemory));
      optimization := None;
      isOptimizing := false;
      startTime := now;
      scrollPositions := [];
      scrollHistory := [];
      inFlight := 0;
    }

    /** A `scroll` event at position `scrollY`. */
    method HandleScroll(scrollY: int)
      requires Valid()
      modifies this
      ensures Valid()
      ensures scrollHistory == old(scrollHistory) + [scrollY]
      ensures scrollPositions == ScrollPush(old(scrollPositions), scrollY)
      ensures |scrollPositions| <= WindowSize
      ensures userBehavior == old(userBehavior) && optimization == old(optimization)
      ensures isOptimizing == old(isOptimizing) && inFlight == old(inFlight) && startTime == old(startTime)
    {
      scrollPositions := scrollPositions + [scrollY];
      if |scrollPositions| > WindowSize {
        scrollPositions := scrollPositions[1..];
      }
      ScrollPushKeepsLastTen(scrollHistory, scrollY);
      scrollHistory := scrollHistory + [scrollY];
    }

    /** `beforeunload`: record the time on page and the current window of positions. */
    method HandleBeforeUnload(now: int)
      requires Valid()
      modifies this`userBehavior
      ensures Valid()
      ensures userBehavior == old(userBehavior).(timeOnPage := now - startTime, scrollPattern := scrollPositions)
      ensures userBehavior.scrollPattern == LastN(scrollHistory, WindowSize)
    {
      userBehavior := userBehavior.(timeOnPage := now - startTime, scrollPattern := scrollPositions);
    }

    /**
     * The start of `optimizeWithAI(action)`: set `isOptimizing` and build the
     * request body, whose time on page is measured from the page's time origin.
     */
    method StartOptimize(action: string, now: int, timeOrigin: int) returns (request: Fn.OptimizationRequest)
      requires Valid()
      modifies this`isOptimizing, this`inFlight
      ensures Valid()
      ensures isOptimizing && inFlight == old(inFlight) + 1
      ensures request == Fn.OptimizationRequest(action, Some(AsSent(userBehavior.(timeOnPage := now - timeOrigin))))
    {
      isOptimizing := true;
      inFlight := inFlight + 1;
      request := Fn.OptimizationRequest(action, Some(AsSent(userBehavior.(timeOnPage := now - timeOrigin))));
    }

    /**
     * The end of one call: on success store `data.optimization` and return
     * `data`; on error return nothing and keep `optimization`; either way
     * (the `finally` block) clear `isOptimizing`.
     */
    method FinishOptimize(outcome: InvokeOutcome) returns (result: Option<Fn.SuccessData>)
      requires Valid() && inFlight > 0
      modifies this`isOptimizing, this`inFlight, this`optimization
      ensures Valid()
      ensures !isOptimizing && inFlight == old(inFlight) - 1
      ensures outcome.Returned? ==> result == Some(outcome.data) && optimization == outcome.data.optimization
      ensures outcome.InvokeError? ==> result == None && optimization == old(optimization)
    {
      match outcome {
        case Returned(data) =>
          optimization := data.optimization;
          result := Some(data);
        case InvokeError =>
          result := None;
      }
      isOptimizing := false;
      inFlight := inFlight - 1;
    }
  }

  /** Ten or fewer scroll events are all kept; the eleventh drops the first. */
  method ScrollWindowExample()
  {
    var hook := new AIOptimizationState("Mozilla/5.0", None, None, 0);
    var i := 1;
    while i <= 11
      invariant 1 <= i <= 12 && hook.Valid()
      invariant hook.scrollHistory == seq(i - 1, k requires 0 <= k < i - 1 => k + 1)
    {
      hook.HandleScroll(i);
      i := i + 1;
    }
    assert hook.scrollPositions == hook.scrollHistory[1..];
    assert hook.scrollPositions[0] == 2 && hook.scrollPositions[9] == 11;
  }

  /**
   * `isOptimizing` is one flag, not a count: when two calls overlap, the first
   * to finish clears it while the other is still in flight.
   */
  method OverlappingCallsClearFlagEarly()
  {
    var hook := new AIOptimizationState("Mozilla/5.0", None, None, 0);
    var first := hook.StartOptimize("prerender", 10, 0);
    var second := hook.StartOptimize("performance-analysis", 20, 0);
    assert hook.isOptimizing && hook.inFlight == 2;
    var r := hook.FinishOptimize(InvokeError);
    assert !hook.isOptimizing && hook.inFlight == 1;
    r := hook.FinishOptimize(InvokeError);
    assert !hook.isOptimizing && hook.inFlight == 0;
  }
}
