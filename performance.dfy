/**
 * Rate-limiting wrappers and the viewport test (src/lib/performance.ts).
 *
 * Each wrapper's closure variables become the fields of an object. Time is an
 * explicit clock in milliseconds: `Call` and `Scroll` happen at the current
 * time, `Elapse(d)` lets `d` milliseconds pass and runs every timer that falls
 * due, and `Frame()` is the browser running its animation-frame callbacks.
 * The wrapped function is not called here: a method returns the arguments it
 * would be called with, or `None` when it is not called.
 */
module Performance {
  import opened Wrappers

  const TwoTo31: int := 0x8000_0000
  const TwoTo32: int := 0x1_0000_0000

  /** The conversion of a delay to a signed 32-bit `long`: wrap modulo 2^32 into [-2^31, 2^31). */
  function ToInt32(ms: int): (t: int)
    ensures -TwoTo31 <= t < TwoTo31
    ensures (t - ms) % TwoTo32 == 0
  {
    var m := ms % TwoTo32;
    if m >= TwoTo31 then m - TwoTo32 else m
  }

  /**
   * The wait `setTimeout(f, ms)` actually uses: `ms` converted to a 32-bit
   * signed integer, and a negative result counts as 0.
   */
  function TimerDelay(ms: int): (d: nat)
    ensures d < TwoTo31
    ensures 0 <= ms < TwoTo31 ==> d == ms
    ensures ms < 0 && -TwoTo31 <= ms ==> d == 0
  {
    var t := ToInt32(ms);
    if t > 0 then t else 0
  }

  /**
   * A delay of 2^31 ms or more is not a long wait: it wraps around, so a
   * limit of exactly 2^31 fires at once and 2^32 + 5 waits 5 ms.
   */
  lemma {:induction false} LongDelayWrapsAround(ms: int)
    ensures TimerDelay(ms + TwoTo32) == TimerDelay(ms)
    ensures TimerDelay(TwoTo31) == 0 && TimerDelay(TwoTo32 + 5) == 5
  {
    assert (ms + TwoTo32) % TwoTo32 == ms % TwoTo32;
  }

  // ---------------------------------------------------------------------
  // isInViewport

  datatype Rect = Rect(top: real, left: real, bottom: real, right: real)

  /** The window's inner size and the document element's client size. */
  datatype Viewport = Viewport(innerWidth: int, innerHeight: int, clientWidth: int, clientHeight: int)

  /** `window.innerHeight || document.documentElement.clientHeight` */
  function ViewportHeight(v: Viewport): (h: int)
    ensures h == v.innerHeight || h == v.clientHeight
    ensures h == 0 ==> v.innerHeight == 0
  {
    if v.innerHeight != 0 then v.innerHeight else v.clientHeight
  }

  /** `window.innerWidth || document.documentElement.clientWidth` */
  function ViewportWidth(v: Viewport): (w: int)
    ensures w == v.innerWidth || w == v.clientWidth
    ensures w == 0 ==> v.innerWidth == 0
  {
    if v.innerWidth != 0 then v.innerWidth else v.clientWidth
  }

  /** Whether the element's bounding rectangle lies wholly inside the viewport. */
  predicate IsInViewport(rect: Rect, v: Viewport): (b: bool)
    ensures b && rect.top <= rect.bottom && rect.left <= rect.right ==>
      InView(rect.left, rect.top, v) && InView(rect.right, rect.bottom, v)
    ensures b ==> 0.0 <= rect.top && 0.0 <= rect.left
  {
    && rect.top >= 0.0
    && rect.left >= 0.0
    && rect.bottom <= ViewportHeight(v) as real
    && rect.right <= ViewportWidth(v) as real
  }

  predicate InRect(x: real, y: real, rect: Rect) {
    rect.left <= x <= rect.right && rect.top <= y <= rect.bottom
  }

  predicate InView(x: real, y: real, v: Viewport) {
    0.0 <= x <= ViewportWidth(v) as real && 0.0 <= y <= ViewportHeight(v) as real
  }

  /** The inner size is used unless it is 0, in which case the client size stands in. */
  lemma ViewportFallback(v: Viewport)
    ensures v.innerHeight == 0 ==> ViewportHeight(v) == v.clientHeight
    ensures v.innerHeight != 0 ==> ViewportHeight(v) == v.innerHeight
    ensures v.innerWidth == 0 ==> ViewportWidth(v) == v.clientWidth
    ensures v.innerWidth != 0 ==> ViewportWidth(v) == v.innerWidth
  {
  }

  /** A (non-inverted) rectangle is in the viewport exactly when each of its points is. */
  lemma InViewportIffAllPointsVisible(rect: Rect, v: Viewport)
    requires rect.top <= rect.bottom && rect.left <= rect.right
    ensures IsInViewport(rect, v) <==> forall x, y :: InRect(x, y, rect) ==> InView(x, y, v)
  {
    if forall x, y :: InRect(x, y, rect) ==> InView(x, y, v) {
      assert InRect(rect.left, rect.top, rect);
      assert InRect(rect.right, rect.bottom, rect);
    }
  }

  // ---------------------------------------------------------------------
  // throttle

  class Throttle<A> {
    const limit: int
    var clock: int
    var inThrottle: bool
    /** When the pending `setTimeout(() => inThrottle = false, limit)` falls due. */
    var timerDue: Option<int>
    /** When `func` was last called. */
    ghost var lastInvoked: Option<int>

    ghost predicate Valid()
      reads this
    {
      && (inThrottle <==> timerDue.Some?)
      && (timerDue.Some? ==> clock <= timerDue.value && lastInvoked == Some(timerDue.value - TimerDelay(limit)))
      && (!inThrottle && lastInvoked.Some? ==> clock >= lastInvoked.value + TimerDelay(limit))
    }

    constructor (limit: int, now: int)
      ensures Valid() && this.limit == limit && clock == now
      ensures !inThrottle && timerDue == None && lastInvoked == None
    {
      this.limit := limit;
      clock := now;
      inThrottle := false;
      timerDue := None;
      lastInvoked := None;
    }

    /**
     * A call of the throttled function: outside the throttled state `func` runs
     * at once with these arguments and the limit timer starts; inside it the
     * call is dropped.
     */
    method Call(args: A) returns (invoked: Option<A>)
      requires Valid()
      modifies this
      ensures Valid() && clock == old(clock)
      ensures old(inThrottle) ==> invoked == None && inThrottle && timerDue == old(timerDue)
      ensures !old(inThrottle) ==>
        invoked == Some(args) && inThrottle && timerDue == Some(clock + TimerDelay(limit))
      ensures invoked.Some? ==>
        lastInvoked == Some(clock)
        && (old(lastInvoked).None? || clock >= old(lastInvoked).value + TimerDelay(limit))
    {
      if !inThrottle {
        invoked := Some(args);
        inThrottle := true;
        timerDue := Some(clock + TimerDelay(limit));
        lastInvoked := Some(clock);
      } else {
        invoked := None;
      }
    }

    /** `d` milliseconds pass; only the limit timer leaves the throttled state. */
    method Elapse(d: nat)
      requires Valid()
      modifies this
      ensures Valid() && clock == old(clock) + d && lastInvoked == old(lastInvoked)
      ensures old(timerDue).Some? && old(timerDue).value <= clock ==> !inThrottle && timerDue == None
      ensures !(old(timerDue).Some? && old(timerDue).value <= clock) ==>
        inThrottle == old(inThrottle) && timerDue == old(timerDue)
    {
      clock := clock + d;
      if timerDue.Some? && timerDue.value <= clock {
        inThrottle := false;
        timerDue := None;
      }
    }
  }

  // ---------------------------------------------------------------------
  // debounce

  class Debounce<A> {
    const delay: int
    var clock: int
    /** The pending timer (`timeoutId`): when it falls due and the arguments it will pass. */
    var pending: Option<(int, A)>
    /** The time and arguments of the latest call. */
    ghost var lastCall: Option<(int, A)>

    ghost predicate Valid()
      reads this
    {
      pending.Some? ==>
        && lastCall.Some?
        && pending.value == (lastCall.value.0 + TimerDelay(delay), lastCall.value.1)
        && clock <= pending.value.0
    }

    constructor (delay: int, now: int)
      ensures Valid() && this.delay == delay && clock == now && pending == None && lastCall == None
    {
      this.delay := delay;
      clock := now;
      pending := None;
      lastCall := None;
    }

    /** A call cancels the pending timer and starts a new one with these arguments. */
    method Call(args: A)
      requires Valid()
      modifies this
      ensures Valid() && clock == old(clock)
      ensures lastCall == Some((clock, args))
      ensures pending == Some((clock + TimerDelay(delay), args))
    {
      pending := Some((clock + TimerDelay(delay), args));
      lastCall := Some((clock, args));
    }

    /**
     * `d` milliseconds pass. `func` runs when the timer falls due, with the
     * latest call's arguments, `delay` after that call; then nothing is pending
     * until the next call.
     */
    method Elapse(d: nat) returns (fired: Option<A>)
      requires Valid()
      modifies this
      ensures Valid() && clock == old(clock) + d && lastCall == old(lastCall)
      ensures fired.Some? <==> old(pending).Some? && old(pending).value.0 <= clock
      ensures fired.Some? ==>
        && lastCall.Some? && fired.value == lastCall.value.1
        && clock >= lastCall.value.0 + TimerDelay(delay)
        && pending == None
      ensures fired.None? ==> pending == old(pending)
    {
      clock := clock + d;
      if pending.Some? && pending.value.0 <= clock {
        fired := Some(pending.value.1);
        pending := None;
      } else {
        fired := None;
      }
    }
  }

  // ---------------------------------------------------------------------
  // rafThrottle

  class RafThrottle<A> {
    /** The requested animation frame (`rafId` not null) and the arguments its callback captured. */
    var frameArgs: Option<A>

    constructor ()
      ensures frameArgs == None
    {
      frameArgs := None;
    }

    /** A call requests a frame unless one is pending; while one is, calls are dropped. */
    method Call(args: A) returns (scheduled: bool)
      modifies this
      ensures scheduled <==> old(frameArgs).None?
      ensures frameArgs == if scheduled then Some(args) else old(frameArgs)
    {
      scheduled := frameArgs.None?;
      if scheduled {
        frameArgs := Some(args);
      }
    }

    /** The browser runs its frame callbacks: `func` gets the scheduling call's arguments, then the gate opens. */
    method Frame() returns (invoked: Option<A>)
      modifies this
      ensures invoked == old(frameArgs) && frameArgs == None
    {
      invoked := frameArgs;
      frameArgs := None;
    }
  }

  // ---------------------------------------------------------------------
  // createScrollHandler

  /** The options object; a missing field takes its default. */
  datatype ScrollOptions = ScrollOptions(throttleMs: Option<int>, useRAF: Option<bool>)

  /** A call of `callback(scrollY, isScrolling)`. */
  datatype Notification = Notification(scrollY: int, isScrolling: bool)

  /** How long after the latest scroll event the end-of-scroll notification comes. */
  const ScrollEndDelay: nat := 150

  class ScrollHandler {
    const useRAF: bool
    const rafGate: RafThrottle<()>
    const throttleGate: Throttle<()>
    var clock: int
    var isScrolling: bool
    /** The pending end-of-scroll timer (`scrollTimeout`), by when it falls due. */
    var scrollTimeout: Option<int>
    /** Whether `scrollListener` is registered on the window. */
    var listening: bool

    ghost predicate Valid()
      reads this, throttleGate
    {
      && throttleGate.Valid()
      && throttleGate.clock == clock
      && (scrollTimeout.Some? ==> isScrolling && listening && clock <= scrollTimeout.value)
    }

    constructor (options: ScrollOptions, now: int)
      ensures Valid() && fresh(rafGate) && fresh(throttleGate)
      ensures useRAF == options.useRAF.GetOr(true) && throttleGate.limit == options.throttleMs.GetOr(16)
      ensures rafGate.frameArgs == None && !throttleGate.inThrottle
      ensures clock == now && !isScrolling && scrollTimeout == None && !listening
    {
      useRAF := options.useRAF.GetOr(true);
      rafGate := new RafThrottle();
      throttleGate := new Throttle(options.throttleMs.GetOr(16), now);
      clock := now;
      isScrolling := false;
      scrollTimeout := None;
      listening := false;
    }

    /** `add()`: register the listener. */
    method Add()
      requires Valid()
      modifies this`listening
      ensures Valid() && listening
    {
      listening := true;
    }

    /** `remove()`: unregister the listener and cancel the end-of-scroll timer. */
    method Remove()
      requires Valid()
      modifies this`listening, this`scrollTimeout
      ensures Valid() && !listening && scrollTimeout == None
    {
      listening := false;
      scrollTimeout := None;
    }

    /**
     * A `scroll` event on the window at position `scrollY`. The listener marks
     * scrolling, goes through the gate (with the throttle the callback may run
     * at once; with frames it waits for `Frame`), and restarts the 150 ms timer.
     */
    method Scroll(scrollY: int) returns (notified: Option<Notification>)
      requires Valid()
      modifies this, rafGate, throttleGate
      ensures Valid() && clock == old(clock)
      ensures !old(listening) ==>
        notified == None && isScrolling == old(isScrolling) && scrollTimeout == old(scrollTimeout)
        && rafGate.frameArgs == old(rafGate.frameArgs)
      ensures !useRAF ==> rafGate.frameArgs == old(rafGate.frameArgs)
      ensures useRAF || !old(listening) ==>
        throttleGate.inThrottle == old(throttleGate.inThrottle) && throttleGate.timerDue == old(throttleGate.timerDue)
      ensures old(listening) && !useRAF ==>
        throttleGate.inThrottle
        && throttleGate.timerDue ==
          (if old(throttleGate.inThrottle) then old(throttleGate.timerDue) else Some(clock + TimerDelay(throttleGate.limit)))
      ensures old(listening) ==> isScrolling && scrollTimeout == Some(clock + ScrollEndDelay)
      ensures old(listening) && useRAF ==>
        notified == None && rafGate.frameArgs.Some?
      ensures old(listening) && !useRAF ==>
        notified == (if old(throttleGate.inThrottle) then None else Some(Notification(scrollY, true)))
      ensures listening == old(listening)
    {
      notified := None;
      if !listening {
        return;
      }
      isScrolling := true;
      if useRAF {
        var _ := rafGate.Call(());
      } else {
        var invoked := throttleGate.Call(());
        if invoked.Some? {
          notified := Some(Notification(scrollY, isScrolling));
        }
      }
      scrollTimeout := Some(clock + ScrollEndDelay);
    }

    /** An animation frame: a pending gated callback runs, reading the scroll state as it is now. */
    method Frame(scrollY: int) returns (notified: Option<Notification>)
      requires Valid()
      modifies rafGate
      ensures Valid()
      ensures notified == if useRAF && old(rafGate.frameArgs).Some? then Some(Notification(scrollY, isScrolling)) else None
      ensures useRAF ==> rafGate.frameArgs == None
      ensures !useRAF ==> rafGate.frameArgs == old(rafGate.frameArgs)
    {
      notified := None;
      if useRAF {
        var invoked := rafGate.Frame();
        if invoked.Some? {
          notified := Some(Notification(scrollY, isScrolling));
        }
      }
    }

    /**
     * `d` milliseconds pass: the throttle's limit timer may reopen its gate, and
     * when the end-of-scroll timer falls due scrolling ends and the callback
     * hears `(scrollY, false)`.
     */
    method Elapse(d: nat, scrollY: int) returns (notified: Option<Notification>)
      requires Valid()
      modifies this, throttleGate
      ensures Valid() && clock == old(clock) + d && listening == old(listening)
      ensures rafGate.frameArgs == old(rafGate.frameArgs)
      ensures throttleGate.inThrottle ==
        (old(throttleGate.inThrottle) && !(old(throttleGate.timerDue).Some? && old(throttleGate.timerDue).value <= clock))
      ensures throttleGate.timerDue ==
        (if old(throttleGate.timerDue).Some? && old(throttleGate.timerDue).value <= clock then None else old(throttleGate.timerDue))
      ensures old(scrollTimeout).Some? && old(scrollTimeout).value <= clock ==>
        notified == Some(Notification(scrollY, false)) && !isScrolling && scrollTimeout == None
      ensures !(old(scrollTimeout).Some? && old(scrollTimeout).value <= clock) ==>
        notified == None && isScrolling == old(isScrolling) && scrollTimeout == old(scrollTimeout)
    {
      throttleGate.Elapse(d);
      clock := clock + d;
      notified := None;
      if scrollTimeout.Some? && scrollTimeout.value <= clock {
        isScrolling := false;
        scrollTimeout := None;
        notified := Some(Notification(scrollY, false));
      }
    }
  }

  /** A burst of scroll events ends with one `(y, false)` notification 150 ms after the last event, unless removed. */
  method ScrollEndExample()
  {
    var h := new ScrollHandler(ScrollOptions(None, None), 0);
    h.Add();
    var n := h.Scroll(10);
    assert n == None && h.useRAF;
    n := h.Frame(10);
    assert n == Some(Notification(10, true));
    n := h.Elapse(100, 10);
    n := h.Scroll(20);
    n := h.Elapse(149, 20);
    assert n == None && h.isScrolling;
    n := h.Elapse(1, 20);
    assert n == Some(Notification(20, false)) && !h.isScrolling;
    n := h.Scroll(30);
    h.Remove();
    n := h.Elapse(1000, 30);
    assert n == None && h.isScrolling;
  }

  /** With the throttle gate (16 ms, no frames) a second scroll inside the limit is dropped; after it, one gets through. */
  method ThrottledScrollExample()
  {
    var h := new ScrollHandler(ScrollOptions(Some(16), Some(false)), 0);
    h.Add();
    var n := h.Scroll(10);
    assert n == Some(Notification(10, true));
    n := h.Scroll(20);
    assert n == None;
    n := h.Elapse(16, 20);
    n := h.Scroll(20);
    assert n == Some(Notification(20, true));
  }
}
