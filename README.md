# Portfolio site: caching, device classification and optimisation advisor, in Dafny

This project models the decision logic of a personal portfolio web application
and proves properties of it. The rest of the application is presentational and
is not modelled. The modelled parts are:

- **Service-worker fetch interceptor** (`public/sw.js`). `ServiceWorker.GetResourceType`
  sorts a URL path into images, scripts, styles, api or html. `CacheStrategies`
  is the time-to-live table. `CacheStorage.HandleAIOptimizedRequest` handles one
  request in these steps:
  - a non-GET request goes to the network unchanged;
  - a fresh cached copy is served;
  - otherwise the network is asked, and an ok answer that `cache.put` accepts is stored as a stamped copy;
  - if the network fails, the handler falls back to a cached copy of any age,
    then to the offline page for html, and otherwise rejects.

  The browser cache storage is a class with two map fields, `static-v1` and
  `dynamic-v1`. The clock and the network's answer are parameters. The pure
  function `HandleRequest` states what one request does. The method is proved
  equal to it, and the lemmas are proved about it.
- **Device and animation classifier** (`src/lib/mobile-optimization.ts`). These
  are predicates over an explicit snapshot of the environment: no window (server
  rendering), or a window with its width, user agent and reduced-motion
  preference.
- **The `useAIOptimization` hook** (`src/hooks/useAIOptimization.ts`). It is a
  class holding:
  - the scroll-position window, kept by push and then shift past ten entries;
  - the behaviour snapshot taken at unload;
  - the `isOptimizing` / `optimization` state around a call to the endpoint.
    The call is split into `StartOptimize` and `FinishOptimize`, and the
    endpoint's answer is a parameter of the end.
- **Robot expression choice** (`src/components/ui/interactive-robot.tsx`). It is
  the if/else chain from the tilt angles to an entry of the expression table,
  over `real` numbers.
- **Optimisation endpoint** (`supabase/functions/ai-optimization/index.ts`). It
  is a pure function of these inputs:
  - the HTTP method;
  - the API key;
  - the parsed body;
  - the language model's answer;
  - the timestamp.

  The function builds the prompt, runs the per-action `switch` and returns the
  success or error response. A parser for the prompt shows that the prompt
  determines the values written into it.
- **Rate-limiting wrappers and the viewport test** (`src/lib/performance.ts`).
  `isInViewport` is a predicate over a rectangle. `throttle`, `debounce`,
  `rafThrottle` and `createScrollHandler` are classes whose fields are the
  closures' variables. Time is an explicit clock: `Elapse(d)` runs the timers
  that fall due, and `Frame` runs the pending animation-frame callback.

Helper modules: `Wrappers` (an `Option` type) and `Strings`. `Strings` holds:
- ASCII case folding;
- suffix and substring tests;
- integer to decimal conversion and back;
- comma join and split.

A regular expression with the `i` flag and no `u` flag folds only ASCII letters
onto ASCII letters. So for the ASCII patterns here, folding ASCII letters is
exact.

Two facts about the interceptor that the model follows:
- A cached copy is fresh while `now - stamp <= maxAge`, because expiry at
  `public/sw.js:54` is the strict `>`.
- Every request is intercepted, including cross-origin ones.

## Model

| member | source | states |
|---|---|---|
| `ServiceWorker.GetResourceType` | public/sw.js:100-106 | the category is images exactly when the path ends, ignoring case, with an image extension; scripts, styles and api only when their own test passes; html only when the path is neither `.css` nor contains `/api/` or `/functions/` |
| `ServiceWorker.MaxAge` | public/sw.js:47 | every category is a key of `CACHE_STRATEGIES` (lines 15-21) and its TTL is the table's entry, between 300000 and 2592000000 ms; the TTL is 300000 exactly for api |
| `ServiceWorker.IsExpired` | public/sw.js:53-54 | a copy stamped at or after `now` is never expired |
| `ServiceWorker.ExpiryIsPermanent` | public/sw.js:53-54 | once a copy is expired it stays expired as the clock advances |
| `ServiceWorker.HandleRequest` | public/sw.js:37-98 | the network is asked exactly for a non-GET request, a miss or an expired copy; the buckets change only for a GET whose network answer is ok and accepted by `cache.put`, and then that answer is served; a rejection only ever carries the network's own error |
| `ServiceWorker.ResourceTypeOrder` | public/sw.js:100-106 | each category holds exactly when its test passes and every earlier test fails: image extensions, then script extensions, then `.css` (all ignoring case), then `/api/` or `/functions/`, else html |
| `ServiceWorker.ExtensionCategoryIgnoresCase` | public/sw.js:101-103 | two paths that differ only in letter case get the same extension category |
| `ServiceWorker.ApiPathWithImageExtensionIsImage` | public/sw.js:100-104 | `/api/logo.png` is images: the extension test comes before the api test |
| `ServiceWorker.UpperCaseExtensionIsImage` | public/sw.js:101 | `/img/Photo.JPEG` is images |
| `ServiceWorker.MaxAgeTable` | public/sw.js:15-21 | every category is a key of the table, so the html fallback of line 47 is never used; the TTLs are 604800000, 2592000000, 604800000, 300000 and 3600000 ms |
| `ServiceWorker.UnstampedReadsAsEpoch` | public/sw.js:53-54 | a copy without `sw-cached-date` counts as stamped at time 0, so it is expired exactly when `now > maxAge` |
| `ServiceWorker.OfflinePage` | public/sw.js:89-94 | the offline page is an ok `text/html` response whose body contains "Offline" |
| `ServiceWorker.MatchIn` | public/sw.js:50 | `caches.match` finds a copy exactly when some bucket holds the URL |
| `ServiceWorker.NonGetBypassesCache` | public/sw.js:40-43 | a non-GET request is passed to the network, its outcome is returned as it is, and no bucket changes |
| `ServiceWorker.FreshHitServedWithoutFetch` | public/sw.js:50-58 | a cached copy with `now - stamp <= maxAge` is served without a fetch, and no bucket changes |
| `ServiceWorker.RefetchStoresStampedCopy` | public/sw.js:61-81 | after a miss or a stale copy, the handler fetches and returns the network response unchanged; an ok answer that `cache.put` accepts (not status 206, no `Vary: *`) is stored once, stamped, in `dynamic-v1` for api and in `static-v1` otherwise; any other answer is not stored |
| `ServiceWorker.PartialContentRefetched` | public/sw.js:61-81 | a 206 answer counts as ok and is served, but `cache.put` rejects it, so nothing is stored and the next request fetches again |
| `ServiceWorker.NetworkFailureFallbacks` | public/sw.js:82-97 | when the network fails, the handler serves any cached copy whatever its age, else the offline page for html, else it rejects with the error; no bucket changes |
| `ServiceWorker.OfflinePageForHtml` | public/sw.js:89-94 | an html request with no network and no copy gets a `text/html` page containing "Offline" |
| `ServiceWorker.StepKeepsWellPlaced` | public/sw.js:75-78 | every request keeps api responses only in `dynamic-v1` and all other responses only in `static-v1` |
| `ServiceWorker.SecondRequestWithinTtlIsHit` | public/sw.js:50-81 | after a refetch got an ok answer that `cache.put` accepts, the same GET within the TTL gets that stamped copy with no second fetch and no cache change |
| `ServiceWorker.CacheStorage.Match` | public/sw.js:50 | the cache-storage lookup finds a copy exactly when one of the two buckets holds the URL |
| `ServiceWorker.CacheStorage.Put` | public/sw.js:75-78 | `caches.open(name).put` is accepted exactly when the response is not 206 and has no `Vary: *`; then it updates exactly the named bucket at the URL, and otherwise nothing changes |
| `ServiceWorker.CacheStorage.constructor` | public/sw.js:23-29 | the storage starts with the contents the install step left, with api and non-api entries in their buckets |
| `ServiceWorker.CacheStorage.HandleAIOptimizedRequest` | public/sw.js:37-98 | the outcome, whether the network was asked, and the new buckets equal `HandleRequest` on the old buckets; the bucket placement is preserved |
| `Strings.ContainsIffOccurs` | public/sw.js:104 | the substring test `includes` holds exactly when the text occurs at some position |
| `Strings.MissingCharNotContained` | src/lib/mobile-optimization.ts:8 | a text with a character that the subject lacks does not occur in it |
| `Strings.LetterMissingFromLower` | src/lib/mobile-optimization.ts:8 | a letter absent from a text in both cases is absent from its lower-cased form, as the `i` flag compares it |
| `Strings.EndsWithIgnoreCaseOf` | public/sw.js:101-103 | a text ends, ignoring case, with any suffix that equals its tail ignoring case |
| `Strings.ContainsInfix` | public/sw.js:91 | a text occurs in any text that has it in the middle |
| `Strings.IntToStringRoundTrip` | supabase/functions/ai-optimization/index.ts:40 | reading back the decimal form of an integer gives the integer |
| `Strings.SplitJoin` | supabase/functions/ai-optimization/index.ts:41 | splitting a comma join of comma-free pieces gives the pieces back |
| `MobileOptimization.IsMobile` | src/lib/mobile-optimization.ts:6-9 | without a window the device is not mobile; a window narrower than 768 is mobile |
| `MobileOptimization.IsDesktop` | src/lib/mobile-optimization.ts:12-16 | without a window the device is desktop; desktop is never mobile, and with a window it needs width at least 1024 |
| `MobileOptimization.PrefersReducedMotion` | src/lib/mobile-optimization.ts:19-23 | without a window it is false; with one it is exactly the `prefers-reduced-motion: reduce` preference |
| `MobileOptimization.ShouldReduceAnimations` | src/lib/mobile-optimization.ts:26-28 | mobile or reduced motion selects it; on a desktop it is selected only by reduced motion |
| `MobileOptimization.ShouldEnableHighEndAnimations` | src/lib/mobile-optimization.ts:30-33 | it is selected only on a desktop that is not mobile, and never together with reduced animations |
| `MobileOptimization.IsMobileIff` | src/lib/mobile-optimization.ts:6-9 | with a window, the device is mobile exactly when the width is below 768 or the user agent contains one of the eight tokens, ignoring case; user agents that differ only in letter case classify alike, and a narrower window with the same agent is mobile too |
| `MobileOptimization.NoWindowDefaults` | src/lib/mobile-optimization.ts:6-33 | without a window: not mobile, desktop, no reduced motion, high-end animations on and reduced animations off |
| `MobileOptimization.DesktopExcludesMobile` | src/lib/mobile-optimization.ts:12-16 | desktop means width at least 1024 and not mobile, so desktop and mobile are never both true |
| `MobileOptimization.AnimationModesExclusive` | src/lib/mobile-optimization.ts:26-33 | reduced animations means mobile or reduced motion; high-end means desktop and no reduced motion; the two are never both selected |
| `MobileOptimization.TabletGap` | src/lib/mobile-optimization.ts:6-33 | a width in [768, 1024) with no mobile token is neither mobile nor desktop, and without reduced motion neither animation mode is selected |
| `MobileOptimization.NarrowIsMobile` | src/lib/mobile-optimization.ts:8 | width 500 is mobile and gets reduced animations |
| `MobileOptimization.WideDesktopHighEnd` | src/lib/mobile-optimization.ts:12-33 | width 1200 with a non-mobile user agent gets high-end animations exactly when motion is not reduced |
| `MobileOptimization.NoTokenWithoutBDP` | src/lib/mobile-optimization.ts:8 | every mobile token contains a `b`, `d` or `p` once lower-cased, so a user agent without those letters in either case has no mobile token |
| `MobileOptimization.DesktopUserAgentExample` | src/lib/mobile-optimization.ts:8 | the user agent `Mozilla/5.0` has no mobile token |
| `AIOptimizationHook.ScrollPush` | src/hooks/useAIOptimization.ts:42-45 | the new position is the last entry; the window never shrinks, and a window of at most 10 stays at most 10 |
| `AIOptimizationHook.ScrollPushKeepsLastTen` | src/hooks/useAIOptimization.ts:42-45 | one scroll event turns the last ten positions seen into the last ten including the new one |
| `AIOptimizationHook.ReplayIsLastTen` | src/hooks/useAIOptimization.ts:41-46 | after any scroll events the window holds at most 10 entries, and they are the last `min(n, 10)` positions in arrival order |
| `AIOptimizationHook.ScrollPushShape` | src/hooks/useAIOptimization.ts:42-45 | each event appends exactly its position; the oldest entry is removed only when the window was full |
| `AIOptimizationHook.InitialMobileIgnoresWidth` | src/hooks/useAIOptimization.ts:27 | the hook's `isMobile` reads only the user-agent tokens, so it differs from the width-aware classifier for a narrow window with a desktop agent |
| `AIOptimizationHook.AIOptimizationState.constructor` | src/hooks/useAIOptimization.ts:23-39 | the initial state: an empty pattern, time 0, `isMobile` from the tokens, connection or "unknown", no optimisation, not optimising |
| `AIOptimizationHook.AIOptimizationState.HandleScroll` | src/hooks/useAIOptimization.ts:41-46 | the window becomes push-then-shift of the old window, stays at most 10 long and equals the last ten positions seen; nothing else changes |
| `AIOptimizationHook.AIOptimizationState.HandleBeforeUnload` | src/hooks/useAIOptimization.ts:48-54 | `timeOnPage` becomes now minus the start time and `scrollPattern` the current window |
| `AIOptimizationHook.AIOptimizationState.StartOptimize` | src/hooks/useAIOptimization.ts:65-77 | `isOptimizing` becomes true and the request carries the action and the behaviour, with time on page measured from the time origin |
| `AIOptimizationHook.AIOptimizationState.FinishOptimize` | src/hooks/useAIOptimization.ts:78-87 | on success `optimization` becomes `data.optimization` and `data` is returned; on error null is returned and `optimization` is unchanged; in both cases `isOptimizing` becomes false |
| `InteractiveRobot.SelectExpression` | src/components/ui/interactive-robot.tsx:66-98 | the chosen expression is an entry of the table, and it is one of surprised, excited, curious, sleepy or happy |
| `InteractiveRobot.ExpressionIndex` | src/components/ui/interactive-robot.tsx:79-96 | the chain always picks an index of the seven-entry table |
| `InteractiveRobot.TableIndices` | src/components/ui/interactive-robot.tsx:19-27 | the table order matches the chain's comments: 4 surprised, 1 excited, 2 curious, 3 sleepy, 0 happy, 5 focused, 6 playful |
| `InteractiveRobot.TiltBands` | src/components/ui/interactive-robot.tsx:79-87 | with tilt = abs(beta) + abs(gamma): above 60 surprised, (40, 60] excited, (20, 40] curious |
| `InteractiveRobot.CalmBands` | src/components/ui/interactive-robot.tsx:88-96 | with tilt at most 20: both angles under 5 in size gives sleepy, anything else gives happy |
| `InteractiveRobot.PlayfulAndFocusedUnreachable` | src/components/ui/interactive-robot.tsx:90-93 | the playful and focused branches are never taken |
| `InteractiveRobot.SelectionMatchesBands` | src/components/ui/interactive-robot.tsx:79-98 | every reading yields a table entry, and its name is the one the tilt bands give |
| `InteractiveRobot.SelectionIgnoresAlpha` | src/components/ui/interactive-robot.tsx:66-98 | `alpha` never changes the expression; missing angles read as 0, so an empty reading is sleepy |
| `AIOptimizationFunction.Handle` | supabase/functions/ai-optimization/index.ts:23-136 | the status is 200 or 500, and 500 exactly with an error body, whose message is non-empty and whose headers are JSON and CORS; the model is only ever sent the built prompt; a success body means the model generated text, which it carries as `aiInsights` with the timestamp |
| `AIOptimizationFunction.BuildPrompt` | supabase/functions/ai-optimization/index.ts:36-46 | the prompt starts with the fixed introduction and ends with the action followed by the fixed closing request |
| `AIOptimizationFunction.ScrollText` | supabase/functions/ai-optimization/index.ts:41 | the scroll text is never empty, and a single position is its decimal form |
| `AIOptimizationFunction.PromptFor` | supabase/functions/ai-optimization/index.ts:36-46 | a prompt is built exactly when `userBehavior` is absent or has a `deviceInfo` object; it then starts with the introduction and ends with the action |
| `AIOptimizationFunction.OptimizationFor` | supabase/functions/ai-optimization/index.ts:78-116 | a record exists exactly for the four known actions, each giving its own kind of record; the analysis record carries the model's text |
| `AIOptimizationFunction.ErrorResponse` | supabase/functions/ai-optimization/index.ts:127-134 | status 500 with JSON and CORS headers and a non-empty error: the thrown message when non-empty, else the default text |
| `AIOptimizationFunction.DeviceInfoMissingFails` | supabase/functions/ai-optimization/index.ts:38 | a `userBehavior` whose `deviceInfo` is missing or `null` makes the prompt throw, and the catch of lines 127-134 answers 500 with the TypeError message for `undefined` or `null`; the model is not called |
| `AIOptimizationFunction.ParseBuildPrompt` | supabase/functions/ai-optimization/index.ts:36-46 | the prompt can be read back into the five values written into it, provided no value except the action contains a line break |
| `AIOptimizationFunction.ScrollTextReadsBack` | supabase/functions/ai-optimization/index.ts:41 | an absent or empty scroll pattern reads "none"; any other pattern is comma-joined, is never "none", and parses back to its positions in order |
| `AIOptimizationFunction.PromptReadsBack` | supabase/functions/ai-optimization/index.ts:36-46 | for a request whose `deviceInfo` is an object and whose connection has no line break, a prompt is built and it says "Mobile" exactly for a mobile device and "Desktop" otherwise; it gives the connection or "unknown", the time on page or 0, the scroll text and the action |
| `AIOptimizationFunction.OptionsPreflight` | supabase/functions/ai-optimization/index.ts:24-26 | OPTIONS gets a null body with the CORS headers, with no key check and no model call |
| `AIOptimizationFunction.MissingKeyFails` | supabase/functions/ai-optimization/index.ts:29-32 | a missing or empty key gives status 500 with the "not configured" error and no model call |
| `AIOptimizationFunction.UpstreamFailureFails` | supabase/functions/ai-optimization/index.ts:48-70 | once the checks pass, the built prompt is sent; a failed or non-ok model call gives 500 with a non-empty `error`, which is "Gemini API error: " plus the status text for a non-ok answer |
| `AIOptimizationFunction.GeneratedSucceeds` | supabase/functions/ai-optimization/index.ts:118-125 | generated text gives 200 with JSON and CORS headers and a success body holding the action's record, the text as `aiInsights`, and the timestamp |
| `AIOptimizationFunction.PrerenderRecord` | supabase/functions/ai-optimization/index.ts:79-86 | "prerender" gives `shouldPrerender` true, priority [about, skills, projects], "aggressive", and threshold 0.5 on mobile or 0.3 otherwise |
| `AIOptimizationFunction.FixedRecords` | supabase/functions/ai-optimization/index.ts:88-103 | "cache-strategy" gives 7d/1h/inline/preload; "route-optimization" gives [/about, /projects]/route-based/high |
| `AIOptimizationFunction.AnalysisRecord` | supabase/functions/ai-optimization/index.ts:105-114 | "performance-analysis" gives the four fixed recommendations in order, with the model's text as `aiInsights` |
| `AIOptimizationFunction.UnknownActionHasNoRecord` | supabase/functions/ai-optimization/index.ts:78-122 | any other action still gives a 200 success, with no `optimization` |
| `AIOptimizationFunction.UpstreamCalledOnlyWithPrompt` | supabase/functions/ai-optimization/index.ts:23-70 | the model is called exactly when the method is not OPTIONS, the key is set, the body parses and the prompt can be built; the status is always 200 or 500 |
| `Performance.TimerDelay` | src/lib/performance.ts:15 | the wait `setTimeout` uses (here and at lines 28 and 82) is below 2^31 ms; a delay in [0, 2^31) is kept, and a negative one of 32-bit size counts as 0 |
| `Performance.LongDelayWrapsAround` | src/lib/performance.ts:15 | the delay wraps around modulo 2^32, so a limit of 2^31 fires at once and 2^32 + 5 waits 5 ms |
| `Performance.ViewportHeight` | src/lib/performance.ts:52 | the height is the inner or the client height, and it is 0 only when the inner height is 0 |
| `Performance.ViewportWidth` | src/lib/performance.ts:53 | the width is the inner or the client width, and it is 0 only when the inner width is 0 |
| `Performance.IsInViewport` | src/lib/performance.ts:47-55 | when it holds, the top and left are not negative and both corners of a non-inverted rectangle are inside the viewport |
| `Performance.ViewportFallback` | src/lib/performance.ts:52-53 | the viewport height and width are the inner size unless that is 0, in which case the client size is used |
| `Performance.InViewportIffAllPointsVisible` | src/lib/performance.ts:47-55 | a non-inverted rectangle passes the four comparisons exactly when every point of it lies inside the viewport |
| `Performance.Throttle.constructor` | src/lib/performance.ts:6-11 | `throttle(func, limit)` starts outside the throttled state (`inThrottle` is undefined, which reads as false), with no limit timer pending and no earlier run of `func` |
| `Performance.Throttle.Call` | src/lib/performance.ts:10-17 | outside the throttled state, `func` runs at once with the arguments and the limit timer starts; inside it, the call is dropped and nothing changes; two runs of `func` are at least the limit apart |
| `Performance.Throttle.Elapse` | src/lib/performance.ts:15 | only the limit timer, once due, leaves the throttled state |
| `Performance.Debounce.constructor` | src/lib/performance.ts:21-26 | `debounce(func, delay)` starts with no timer pending and no call yet |
| `Performance.Debounce.Call` | src/lib/performance.ts:25-29 | every call replaces the pending timer by one due `delay` later that carries this call's arguments |
| `Performance.Debounce.Elapse` | src/lib/performance.ts:28 | `func` runs when and only when the pending timer falls due; it gets the latest call's arguments, runs at least `delay` after that call, and leaves nothing pending |
| `Performance.RafThrottle.constructor` | src/lib/performance.ts:33-37 | `rafThrottle(func)` starts with no frame requested |
| `Performance.RafThrottle.Call` | src/lib/performance.ts:36-43 | a frame is requested with these arguments only when none is pending; otherwise the call is dropped |
| `Performance.RafThrottle.Frame` | src/lib/performance.ts:39-42 | the frame runs `func` with the scheduling call's arguments and clears the gate |
| `Performance.ScrollHandler.constructor` | src/lib/performance.ts:58-75 | the options default to `throttleMs` 16 and `useRAF` true; the handler starts not scrolling, with no timer and no listener |
| `Performance.ScrollHandler.Add` | src/lib/performance.ts:89 | `add` registers the listener |
| `Performance.ScrollHandler.Remove` | src/lib/performance.ts:90-93 | `remove` unregisters the listener and cancels the end-of-scroll timer |
| `Performance.ScrollHandler.Scroll` | src/lib/performance.ts:77-86 | a scroll event with the listener registered sets `isScrolling`, goes through the chosen gate (throttle: the callback may get `(y, true)` at once; frames: a frame is requested) and restarts the 150 ms timer; the throttle gate is then closed, due `limit` after the call that opened it; the gate not used keeps its state; without the listener nothing changes |
| `Performance.ScrollHandler.Frame` | src/lib/performance.ts:69-72 | with frame pacing, a pending frame calls back with the scroll position and the current `isScrolling` and clears the frame gate; without frame pacing nothing is notified and the frame gate keeps its state |
| `Performance.ScrollHandler.Elapse` | src/lib/performance.ts:82-85 | the throttle gate reopens exactly when its limit timer (line 15) falls due; when the end-of-scroll timer falls due, `isScrolling` becomes false and the callback gets `(y, false)`; otherwise nothing is notified |

The model also contains four client methods with assertions that exercise the classes:
- `AIOptimizationHook.ScrollWindowExample`: the eleventh scroll drops the first position.
- `AIOptimizationHook.OverlappingCallsClearFlagEarly`: `isOptimizing` is a single flag.
  When two calls overlap, the first one to finish clears it while the other is
  still in flight.
- `Performance.ScrollEndExample`: one end-of-scroll notification comes 150 ms
  after the last event, and none comes after `remove`.
- `Performance.ThrottledScrollExample`: with a 16 ms throttle and no frames, a
  second scroll within 16 ms is dropped, and one after 16 ms is notified.

## Left out

- Service worker:
  - the `install` pre-caching (`addAll`), beyond taking its result as the initial storage;
  - the `sync` handler, `calculateCacheHitRate` (an estimate in floating point) and `getStoredLoadTimes` (local storage).
- `ServiceWorker.HandleRequest` and the cache matching:
  - cache keys are the request URL (an `Url` value of address and path), and the request method and `Vary` headers are not part of matching (only `Vary: *` is modelled, as a reason for `cache.put` to refuse);
  - `cache.put` is not awaited in the source; the model applies it before the response is returned.
- `ServiceWorker.IsExpired`: the `sw-cached-date` header is held as the millisecond time it encodes. The ISO text formatting and parsing are not modelled. An unparsable header, which reads as NaN and never expires, is not modelled either.
- Clocks: `Date.now()` at the age check and at stamping are the parameters `now` and `stampTime`. The endpoint's ISO timestamp is a parameter too.
- Optimisation endpoint:
  - the HTTP call to the language model and the JSON parsing of its answer are the `Upstream` parameter, and a malformed answer counts as `Failed`;
  - the response body is a datatype rather than serialised JSON;
  - the `GEMINI_API_KEY` lookup is the `apiKey` parameter;
  - the message of a JSON parse error in the request body is a parameter.
- Numbers: scroll positions, times on page and widths are integers, and the decimal rendering in the prompt is the integer one. Fractional JavaScript numbers and NaN are not modelled; this includes `navigator.deviceMemory` (`DeviceInfo.memory`), which can be a fraction such as 0.25 or 0.5 but is held as an integer, and which no modelled output depends on. Tilt angles and rectangles are `real`.
- `AIOptimizationHook.AIOptimizationState.HandleBeforeUnload`: the stored `scrollPattern` is a copy. In the source it aliases the live array, so later scroll events would still change it.
- Hook:
  - React's asynchronous state updates are applied at once;
  - listener registration and clean-up are not modelled;
  - the 3-second automatic `optimizeWithAI('performance-analysis')` on mount is not modelled; it is a `StartOptimize` with that action;
  - console logging is not modelled.
- Robot: the spring animation, the orientation-permission flow and the listener registration. Only the expression choice is modelled.
- `Performance.RafThrottle.Frame`: exceptions are not modelled. In the source, an exception thrown by `func` leaves the frame gate closed, and in `throttle` it leaves the throttle gate open.
- Performance timers: browsers clamp nested timers to at least 4 ms, and this is not modelled. The delay's conversion to a 32-bit signed integer is modelled; a missing or non-integer delay is not.
- `performanceMonitor.measureFPS`, `measureScrollPerformance` and the DOM-writing preload and image helpers of `src/lib/performance.ts` and `src/lib/mobile-optimization.ts` are not modelled (animation-frame rates in floating point, DOM output).
- Presentational components, the WebGL and 3D scenes, the routing in `src/App.tsx`, and the build configuration are not part of this model.
