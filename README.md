# AntiAdblock detector — a Dafny model

This project models the `AntiAdblock` class of the anti-adblock library
(`src/index.ts`). The class decides whether an ad blocker is active on the
page. It waits until the document is loaded (the readiness gate of `init`)
and then runs two heuristics:

- the bait element: a `div.adsbox` appended to the body whose measured height is 0;
- the bait request: a `HEAD` request to a blacklisted URL that fails.

`check` combines them with a short-circuit OR.

The browser is replaced by inputs and a record of effects:

- `Detector.Browser` holds `document.readyState`, the single
  `document.onreadystatechange` slot, and the logs of appended elements,
  issued requests and scheduled timer delays.
- The measured `offsetHeight`, the fetch outcome, the value `getRandomUrl()`
  draws and `DEFAULT_BLACKLIST_URL` are method parameters.
- A host without `window`/`document` is a null `Browser`.

Modules:

- `Wrappers`: `Option` (TypeScript's `undefined`), `Coalesce` (`??`), `Result`, `Outcome`.
- `Options`: the configuration bag and its defaults.
- `Probe`: the probe-URL precedence rule.
- `Readiness`: one `init` call as a pure state machine over an ordered
  sequence of events. The events are `readystatechange` notifications and
  the init timer firing. `Gate` is the detector's `ready` flag, whether the
  timer is still scheduled, and the state of the returned promise. `Run`
  folds `Step` over the events. The lemmas say what the race produces.
- `Detector`: the imperative classes.
  - `AntiAdblock` has the mutable `ready` field.
  - `InitCall` is one pending `init`: its promise, its timer, and the handler
    closure that writes `ready`. Its `View()` is proved to follow `Readiness.Step`.
  - `Browser` is the host.

Behaviour of the code that the model keeps and that is easy to miss:

- The `readystatechange` handler stays installed after the timer has rejected
  the promise. A later `complete` notification therefore still sets `ready` to
  true, although the promise stays rejected (`Readiness.TimeoutFirstRejects`).
- The default bait-element delay is 1000 ms (`1000 * 1`), not 100 ms.
- `??` keeps a configured timeout of 0 or below; only an absent value takes the default.
- `init` re-runs the whole wait on every call. The handler slot is shared, so
  a second `init` replaces the first call's handler. After that, only the
  first call's timer can settle the first call's promise.
- The bait element is never removed: `body` only grows.

## Model

| member | source | states |
|---|---|---|
| `Options.InitTimeout` | src/index.ts:33-36 | the init timer's delay is the configured `initTimeout` whenever present (0 included); otherwise 10000 ms, also when the inner config is absent |
| `Options.ClassNameDelay` | src/index.ts:76-79 | the measurement delay is the configured `classNameMethodTimeout` whenever present; otherwise 1000 ms |
| `Options.DebugEnabled` | src/index.ts:23 | debugging is on exactly when `debug` was given as true |
| `Probe.SelectProbe` | src/index.ts:87-91 | custom URL exactly when one is configured; random blacklist URL exactly when none is configured and the flag is true; the default URL in every other case |
| `Probe.ProbeUrl` | src/index.ts:87-91 | the probe URL is the custom URL in the custom branch of `SelectProbe`, the random draw in the random branch and `DEFAULT_BLACKLIST_URL` in the default branch |
| `Probe.CustomUrlOverridesRandomFlag` | src/index.ts:87-89 | with a custom URL configured, the probe URL is that URL whatever the random flag is |
| `Probe.RandomDrawUsedIffFlagSet` | src/index.ts:89-91 | without a custom URL, the probe URL is the random draw when the flag is true and the default URL otherwise |
| `Probe.OnlyRandomBranchUsesDraw` | src/index.ts:87-91 | outside the random branch the probe URL does not depend on the draw |
| `Readiness.Launch` | src/index.ts:30-53 | no document: rejected with the browser-only error, flag unchanged, no timer; document complete: resolved and ready with the timer cleared; otherwise pending with the timer scheduled, flag unchanged |
| `Readiness.Step` | src/index.ts:33-45 | one event never clears `ready`, never changes a settled promise, and changes `ready` exactly on a `complete` notification; it keeps the gate invariant; a notification of any state other than `complete` changes nothing, in every state; a `complete` notification sets `ready`, clears the timer and resolves a pending promise; the timer firing while scheduled rejects a pending promise with the timeout error and leaves `ready` alone |
| `Readiness.RaceOutcome` | src/index.ts:33-45 | the race's value is pending exactly when no event is a `complete` notification or the timer; it is never the browser-only error |
| `Readiness.RaceOutcomeAt` | src/index.ts:33-45 | the race is decided by its first decisive event: the timer means rejection with the timeout error, `complete` means resolution |
| `Readiness.RunKeepsReady` | src/index.ts:42 | once `ready` is true, no sequence of events makes it false |
| `Readiness.RunSettlesOnce` | src/index.ts:35-43 | a settled `init` promise keeps its value whatever events follow |
| `Readiness.RunConsistent` | src/index.ts:33-53 | after any events, the timer is scheduled exactly while the promise is pending, and a resolved promise implies `ready` |
| `Readiness.RunReadyIff` | src/index.ts:38-45 | after a sequence of events, `ready` holds if and only if it held before or some notification reported `complete` |
| `Readiness.RunArmedFollowsRace` | src/index.ts:33-45 | from a scheduled timer and a pending promise, the promise ends as the first decisive event dictates |
| `Readiness.AlreadyCompleteResolves` | src/index.ts:47-53 | when the document is complete as `init` runs, the promise resolves, `ready` is true and the timer is cleared, whatever events follow |
| `Readiness.InitFollowsRace` | src/index.ts:33-53 | when the document is not complete as `init` runs, the promise ends as the first decisive event dictates and the gate invariant holds |
| `Readiness.TimeoutFirstRejects` | src/index.ts:33-45 | if the timer fires before any `complete`, the promise is rejected with the timeout error and `ready` is unchanged at that moment; afterwards `ready` holds if and only if it held or a later `complete` arrived |
| `Readiness.CompleteFirstResolves` | src/index.ts:38-45 | if `complete` arrives before the timer fires, the promise resolves, `ready` is true and the timer is cleared |
| `Detector.Browser.SetReadyState` | src/index.ts:38-39 | the host's `readystatechange` reaches only the handler currently installed, which acts as `Readiness.Step`; the body, request and timer logs do not change |
| `Detector.InitCall.OnReadyStateChange` | src/index.ts:38-45 | the handler's effect on `ready`, the timer and the promise is `Readiness.Step` for a notification |
| `Detector.InitCall.OnInitTimeout` | src/index.ts:33-36 | the timer callback's effect is `Readiness.Step` for the timer: rejection with the timeout error, `ready` untouched |
| `Detector.AntiAdblock.constructor` | src/index.ts:17-25 | a new detector is not ready, has `debug` on only when given as true, and keeps the inner config |
| `Detector.AntiAdblock.Init` | src/index.ts:27-55 | the new call's state is `Readiness.Launch` of the old flag and the host; with a document, the call's handler is installed in the single slot and a timer of `InitTimeout` is scheduled |
| `Detector.AntiAdblock.CheckReadyState` | src/index.ts:57-59 | fails with the not-ready error exactly when `ready` is false |
| `Detector.AntiAdblock.ClassNameCheck` | src/index.ts:68-81 | not ready: fails and touches nothing; ready: appends the `adsbox` bait, schedules the `ClassNameDelay` timer and reports blocked exactly when the height is 0 |
| `Detector.AntiAdblock.RequestCheck` | src/index.ts:83-103 | not ready: fails and sends nothing; ready: sends one HEAD/no-cors/no-cache request to `Probe.ProbeUrl` and reports blocked exactly when it fails |
| `Detector.AntiAdblock.Check` | src/index.ts:61-66 | not ready: fails and touches nothing; ready: blocked exactly when the height is 0 or the request fails; the request is sent only when the height is not 0 |

## Left out

- Debug logging (`console.debug`, `console.log`): diagnostic output only.
- Rendering: the CSS layout that yields `offsetHeight` is not modelled. The measured height is an input, and the appended element is recorded as a value.
- The network: the `fetch` call is recorded and its outcome is an input. A request that never settles, which leaves `requestCheck` pending forever, is not modelled.
- Time: timers are recorded with their delays, and their firing is an event. When a timer fires relative to other events is not derived from the delays.
- The blacklist module (`./blacklist`) is not part of this model. `getRandomUrl()`'s draw and `DEFAULT_BLACKLIST_URL` are parameters, so nothing is stated about blacklist membership or randomness.
- Detector.AntiAdblock.Check: a not-ready failure is modelled as a `Failure` result. The model does not distinguish a synchronous throw (`classNameCheck`, `requestCheck`) from a rejected promise (`check`).
- Detector.AntiAdblock.Check: each detection call is modelled as one atomic step. Interleavings of concurrent calls across their `await` points are not modelled; `ready` can only become true between them anyway.
- Detector.AntiAdblock.constructor: the source keeps the caller's inner config object by reference and reads its fields again at each `init`, `classNameCheck` and `requestCheck`. The model copies the config as a value at construction, so it does not model changes the caller makes afterwards to that object or to its `URL` object.
- Options.InitTimeout: timeouts are integers, not JavaScript numbers, so fractions, NaN and the host's clamping of negative delays are not modelled.
