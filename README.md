# Stagewise toolbar auto-injection, modelled in Dafny

This project models the core of `scripts/autoInjectToolbar.js`: an Express
middleware that injects a floating developer toolbar into HTML pages outside
production, and the small client-side runtime (`window.stagewise`) that the
injected bundle installs in the page.

- `policy.dfy` (module `VisibilityPolicy`) holds `shouldShowToolbar`. It is a
  pure decision over `NODE_ENV` and the request's `stagewise` query value.
- `inject.dfy` (module `AutoInject`) holds the body of the wrapped `res.send`.
  It is a pure function from (policy verdict, Content-Type header, data,
  bundle) to the data handed to the original `send`. The module also has a
  `Response` class. Its `AutoInjectToolbar` method replaces `send` in place,
  once per mounting of the middleware. Its `Send` method hands the data to the
  framework exactly once, through every installed wrapper.
- `runtime.dfy` (module `ToolbarRuntime`) holds the visibility state of the
  toolbar container, its panel and the minimize button. The pure functions
  `AfterShow`, `AfterHide`, `AfterKeyDown` and the rest state each
  transition. The `Toolbar` class changes those fields in place, and each of
  its methods ensures `State() == AfterX(old(State()))`. The two `setTimeout`
  callbacks are modelled as pending events: `FireReveal` (the 10 ms reveal)
  and `FireSettle` (the 300 ms settle).
- `diagnostics.dfy` (module `ToolbarDiagnostics`) holds `getPageLoadTime` and
  the cookie count of `showPageInfo`.
- `jsstrings.dfy` (module `JsStrings`) models the JavaScript string built-ins
  the code uses: `includes`/`indexOf`, `replace` with a string pattern,
  `split` on one character, and number-to-decimal. `options.dfy` holds the
  `Option` type that stands for `undefined`.

Behaviour of the code that a reader of its comments and help texts might not
expect, and that the model keeps:

- The query key is `stagewise` (scripts/autoInjectToolbar.js:23), not `toolbar`.
- An environment other than `development`, `test` or unset/empty (for example
  `staging`) hides the toolbar (line 29). No default-on applies to it.
- No query value forces the toolbar on. The launcher's help text claims
  `?stagewise=true` does (scripts/stagewise-launcher.js:252), but nothing
  implements it (`QueryNeverForcesShow`).
- Escape hides the toolbar whenever the container's inline display is not
  `none`. That includes the expanding and collapsing phases, not only the
  visible one. Before `init`, the untouched container also counts as visible.
- Injection happens once per wrapper. Mounting the middleware twice on one
  response stacks two wrappers, and each one injects: the page arrives with
  two copies of the bundle in front of its first `</body>`
  (`TwoLayersInjectTwice`).
- The two timers race with later calls. A reveal that fires after a hide puts
  the panel's `visible` class back (`StaleRevealUndoesHide`). A settle still
  pending when the toolbar is reopened hides it again: press Escape twice,
  then click the minimize button after the first settle fires and before the
  second one does
  (`PendingSettleHidesReopenedToolbar`).
- The header is read before Express's own `send` runs (line 485). So a handler
  that calls `res.send(html)` without setting Content-Type first gets no
  toolbar (`NoContentTypeNoInjection`). The example routes send pages this way
  (scripts/integration-example.js:29). This is the code as written. Whether
  it was meant depends on Express internals, which are not modelled.

## Model

| member | source | states |
|---|---|---|
| `VisibilityPolicy.ShouldShowToolbar` | scripts/autoInjectToolbar.js:15-30 | production is always false. `stagewise` equal to exactly `"false"` or `"0"` is false. Otherwise the result is true iff NODE_ENV is development, test, unset or empty. |
| `VisibilityPolicy.QueryNeverForcesShow` | scripts/autoInjectToolbar.js:23-29 | a query value can only take the toolbar away. `?stagewise=true` never shows it where the environment alone would not. |
| `VisibilityPolicy.OtherEnvironmentsHide` | scripts/autoInjectToolbar.js:29 | any other environment (e.g. `staging`) hides the toolbar, whatever the query says. |
| `JsStrings.IndexOf` | scripts/autoInjectToolbar.js:486-491 | `indexOf`/`includes`: the result is an occurrence with none before it, or no occurrence exists. |
| `JsStrings.IncludesIffOccurs` | scripts/autoInjectToolbar.js:491 | `includes` holds exactly when the pattern occurs at some index. |
| `JsStrings.ReplaceFirst` | scripts/autoInjectToolbar.js:496 | `replace` with a string pattern changes only the first occurrence. With no occurrence, the string is unchanged. |
| `JsStrings.Split` | scripts/autoInjectToolbar.js:350 | `split(';')` gives separator-free pieces, one more than the separators, which join back to the input. |
| `JsStrings.SplitJoin` | scripts/autoInjectToolbar.js:350 | splitting undoes joining separator-free pieces. |
| `JsStrings.ParseDecimalOfDecimal` | scripts/autoInjectToolbar.js:408 | the decimal text of `loadTime + 'ms'` parses back to the number, so distinct times read differently. |
| `AutoInject.WrappedSend` | scripts/autoInjectToolbar.js:478-502 | pass-through unless the policy allows, the Content-Type contains `text/html`, and the data is a string with `<html` and `</body>`. When all hold, the output is the text before the first `</body>`, then the bundle, a newline, and the text from that `</body>` on. |
| `AutoInject.InjectBundleSplices` | scripts/autoInjectToolbar.js:496 | replacing the first `</body>` by bundle + `"\n</body>"` is an insertion in front of that tag. |
| `AutoInject.InjectionPreservesPage` | scripts/autoInjectToolbar.js:491-498 | an injected page grows by exactly the bundle plus one newline. Everything before the first `</body>` and everything from it on (later `</body>` tags included) is kept. |
| `AutoInject.FirstBodyCloseKept` | scripts/autoInjectToolbar.js:496 | if the bundle holds no `</body>` and starts outside the tag's characters, the output's first `</body>` is the original first one, moved past the bundle. |
| `AutoInject.NoContentTypeNoInjection` | scripts/autoInjectToolbar.js:485-488 | a missing Content-Type header reads as `''`, so the data passes through unchanged. |
| `AutoInject.DevelopmentPageGetsBundle` | scripts/autoInjectToolbar.js:478-498 | in development with no query value, `<html><body>X</body></html>` served as HTML becomes `<html><body>X` + bundle + `"\n</body></html>"`. |
| `AutoInject.SuppressedPageUnchanged` | scripts/autoInjectToolbar.js:480-482 | in production, or with `stagewise` `"false"`/`"0"`, the data passes through unchanged. |
| `AutoInject.ThroughLayers` | scripts/autoInjectToolbar.js:476-502 | each stacked wrapper forwards to the one it replaced; one wrapper is the wrapped `send` itself. With no wrapper, a disallowed policy, a non-HTML type, or data that is not a string holding both `<html` and `</body>`, the data arrives unchanged through any number of wrappers. |
| `AutoInject.InjectionKeepsHtmlOpen` | scripts/autoInjectToolbar.js:491-496 | an injected page still contains `<html`: no occurrence of it can overlap the first `</body>`. |
| `AutoInject.InjectedPageStillHtml` | scripts/autoInjectToolbar.js:491-496 | if the bundle holds no `</body>` and starts outside the tag's characters, an injected page passes the HTML-page test again, and its first `</body>` is the original one, moved past the bundle. |
| `AutoInject.TwoLayersInjectTwice` | scripts/autoInjectToolbar.js:476-502 | two stacked wrappers on an HTML page both inject: the page gets the bundle and a newline twice in front of its first `</body>`. |
| `AutoInject.Response.constructor` | scripts/autoInjectToolbar.js:474-476 | a fresh response has no Content-Type, no wrapper and nothing delivered. |
| `AutoInject.Response.SetContentType` | scripts/autoInjectToolbar.js:485 | the header the wrapper later reads is the one the handler set. |
| `AutoInject.Response.AutoInjectToolbar` | scripts/autoInjectToolbar.js:474-505 | mounting the middleware adds exactly one wrapper around `send`. |
| `AutoInject.Response.Send` | scripts/autoInjectToolbar.js:478-502 | a send reaches the original `send` exactly once, with the data all wrappers passed on. Nothing delivered earlier changes. |
| `ToolbarRuntime.AfterShow` | scripts/autoInjectToolbar.js:289-303 | `showToolbar` displays the container and hides the button at once. The panel's `visible` is only scheduled. Without the elements nothing happens. |
| `ToolbarRuntime.AfterHide` | scripts/autoInjectToolbar.js:306-319 | `hideToolbar` drops the panel's `visible` at once and schedules the settle. `isToolbarVisible` is unchanged until then. |
| `ToolbarRuntime.AfterReveal` | scripts/autoInjectToolbar.js:299-301 | the reveal adds `visible` to the panel whatever happened since it was scheduled. |
| `ToolbarRuntime.AfterSettle` | scripts/autoInjectToolbar.js:314-317 | the settle hides the container and shows the button again. The panel's class is untouched. |
| `ToolbarRuntime.AfterInit` | scripts/autoInjectToolbar.js:260-264 | `init` installs the listeners and shows the toolbar: the container is displayed and the button hidden at once, and one reveal is scheduled. The panel's class and pending settles are kept, so a fresh page enters the expanding phase. Without the elements only the listeners are added. |
| `ToolbarRuntime.AfterKeyDown` | scripts/autoInjectToolbar.js:281-285 | a key other than Escape, or Escape while `isToolbarVisible` is false, changes nothing. Escape while it is true drops the panel's `visible` and schedules a settle. The display, the button, pending reveals and the listeners are kept, so the toolbar still counts as visible. |
| `ToolbarRuntime.AfterMinimizeClick` | scripts/autoInjectToolbar.js:272-274 | a click on the minimize button shows the toolbar once listeners exist: the container is displayed and the button hidden at once, and one reveal is scheduled. The panel's class and pending settles are untouched. Before `init`, or without the elements, nothing changes. |
| `ToolbarRuntime.AfterCloseClick` | scripts/autoInjectToolbar.js:276-278 | a click on the close button hides the toolbar once listeners exist: the panel drops `visible` and a settle is scheduled. The display, the button and pending reveals are untouched, so `isToolbarVisible` is unchanged until the settle. Before `init`, or without the elements, nothing changes. |
| `ToolbarRuntime.IsToolbarVisible` | scripts/autoInjectToolbar.js:322-325 | false without the container and false once its display is `none`. True for a present container whose display is unset or `block`. |
| `ToolbarRuntime.OneControlAtATime` | scripts/autoInjectToolbar.js:295-316 | once the container's display has been set, the button is shown exactly when the container is not. |
| `ToolbarRuntime.InitialCountsAsVisible` | scripts/autoInjectToolbar.js:322-325 | the untouched container (no inline display) counts as visible before anything is shown. |
| `ToolbarRuntime.ShowThenReveal` | scripts/autoInjectToolbar.js:289-301 | from hidden, a show enters the expanding phase and its reveal makes the toolbar visible. |
| `ToolbarRuntime.HideThenSettle` | scripts/autoInjectToolbar.js:306-325 | from visible, a hide enters the collapsing phase, still counted visible. The settle makes it hidden with the button back. |
| `ToolbarRuntime.EscapeWhileCollapsingHidesAgain` | scripts/autoInjectToolbar.js:281-285 | Escape while collapsing runs `hideToolbar` again and schedules a second settle. |
| `ToolbarRuntime.PendingSettleHidesReopenedToolbar` | scripts/autoInjectToolbar.js:272-325 | after Escape twice and one settle, a click on the minimize button reopens the toolbar into the collapsing phase. The remaining settle then hides it, whether or not the reveal fires first. |
| `ToolbarRuntime.StaleRevealUndoesHide` | scripts/autoInjectToolbar.js:299-317 | a reveal firing after a later hide puts `visible` back on the panel. The class survives the settle, so the next show is visible at once. |
| `ToolbarRuntime.Toolbar.constructor` | scripts/autoInjectToolbar.js:203-209 | the injected page: no inline display, no classes added, no listeners, nothing pending. |
| `ToolbarRuntime.Toolbar.Init` | scripts/autoInjectToolbar.js:260-264 | the new state is `AfterInit` of the old. |
| `ToolbarRuntime.Toolbar.ShowToolbar` | scripts/autoInjectToolbar.js:289-303 | the new state is `AfterShow` of the old, and the invariant is kept. |
| `ToolbarRuntime.Toolbar.HideToolbar` | scripts/autoInjectToolbar.js:306-319 | the new state is `AfterHide` of the old, and the invariant is kept. |
| `ToolbarRuntime.Toolbar.KeyDown` | scripts/autoInjectToolbar.js:281-285 | the new state is `AfterKeyDown` of the old. |
| `ToolbarRuntime.Toolbar.ClickMinimize` | scripts/autoInjectToolbar.js:272-274 | the new state is `AfterMinimizeClick` of the old. |
| `ToolbarRuntime.Toolbar.ClickClose` | scripts/autoInjectToolbar.js:276-278 | the new state is `AfterCloseClick` of the old. |
| `ToolbarRuntime.Toolbar.FireReveal` | scripts/autoInjectToolbar.js:299-301 | the new state is `AfterReveal` of the old. |
| `ToolbarRuntime.Toolbar.FireSettle` | scripts/autoInjectToolbar.js:314-317 | the new state is `AfterSettle` of the old. |
| `ToolbarRuntime.LoadCloseReopen` | scripts/autoInjectToolbar.js:260-325 | load, reveal, close, settle, Escape, reopen, reveal passes through hidden, expanding, visible, collapsing, hidden, hidden, expanding, visible. |
| `ToolbarDiagnostics.PageLoadTime` | scripts/autoInjectToolbar.js:405-411 | unsupported exactly without the timing facility. Measured exactly when `loadEventEnd - navigationStart` is positive, and then equal to it. Otherwise still computing. |
| `ToolbarDiagnostics.GetPageLoadTime` | scripts/autoInjectToolbar.js:405-411 | "不支持" without the timing facility; the decimal difference of the two timestamps followed by `ms` when it is positive; "计算中..." otherwise. |
| `ToolbarDiagnostics.LoadTimeTextInjective` | scripts/autoInjectToolbar.js:405-411 | `<n>ms`, "计算中..." and "不支持" never coincide, so "not measured" cannot pass for a measurement. |
| `ToolbarDiagnostics.NoFabricatedZero` | scripts/autoInjectToolbar.js:405-411 | `getPageLoadTime` never returns `0ms`, and returns "不支持" exactly when timing is unavailable. |
| `ToolbarDiagnostics.CookieCountAsWritten` | scripts/autoInjectToolbar.js:350 | `split(';').length - 1` is the number of `;` characters in `document.cookie`. |
| `ToolbarDiagnostics.CookieCountAsWrittenOneShort` | scripts/autoInjectToolbar.js:350 | for one or more cookies, the reported count is one less than the number of cookies. |
| `ToolbarDiagnostics.SingleCookieReportedAsNone` | scripts/autoInjectToolbar.js:350 | with the single cookie `a=1`, the page reports 0 cookies where there is 1. |
| `ToolbarDiagnostics.CookieCount` | scripts/autoInjectToolbar.js:350 | corrected count: 0 exactly for an empty cookie string, otherwise one more than the separators. |
| `ToolbarDiagnostics.CookieCountIsNumberOfCookies` | scripts/autoInjectToolbar.js:350 | the corrected count equals the number of `name=value` pairs in `document.cookie`. |

## Left out

- `getToolbarCode` markup and CSS: the bundle is an opaque string parameter `bundle`.
- JsStrings.ReplaceFirst: inserts its replacement literally. JavaScript interprets `$` sequences in a replacement string, but the real bundle contains no `$`, so the two agree for it.
- AutoInject.FirstBodyCloseKept: assumes the bundle has no `</body>` and does not start with one of `/body>`. The real bundle starts with a newline.
- Express internals (`res.get`, the original `send`, its Content-Type defaulting, `res.json` calling `send` again) are foreign code. The header is an input and the original `send` is the `delivered` log.
- The `console.log` at line 492 and `next()` at line 504 have no effect on the data and are not modelled.
- ToolbarRuntime.Toolbar.FireReveal: pending reveals and settles may fire in any order. The real 10 ms / 300 ms delays order them more tightly, so the model allows more interleavings than a real page.
- `init` run twice would register every listener twice. The model keeps one `listening` flag because the bundle calls `init` once (lines 454-458).
- The container, panel and minimize button are found or missing together (`mounted`). Their separate null checks are not modelled.
- The outer wrapper `div` (line 39) is `display: none`, and no script touches it.
- Browser side effects are not modelled. `inspectElement` does `alert` and calls `chrome.devtools`. `showPageInfo` reads DOM and storage; only its cookie count is modelled. `toggleConsole` only logs. `analyzePerformance` counts nodes, images and scripts, and its DNS/TCP/response/DOM timings are left out altogether when timing is missing (not reported as unsupported). `exportData` builds a Blob and a download link.
- ToolbarDiagnostics.PageLoadTime: timings are integers. JavaScript's exponent notation for numbers of 1e21 and above is not modelled.
- Strings are sequences of Unicode characters. JavaScript strings are UTF-16 code units, which makes no difference for the ASCII patterns searched here.
- IDE-session discovery and selection live in `toolbar/core/src/components/toolbar/settings.tsx` over a `useVSCode` hook that is not part of this model. The launchers (`scripts/stagewise-launcher.js`, `scripts/launchStagewise.js`) and the example server (`scripts/integration-example.js`) are I/O and presentation.

## Findings

| source | as written | input that shows it | evidently intended | confidence | as-written member | corrected member |
|---|---|---|---|---|---|---|
| scripts/autoInjectToolbar.js:350 | `document.cookie.split(';').length - 1` counts the `;` separators | `document.cookie == "a=1"` is reported as 0 cookies (`SingleCookieReportedAsNone`) | the number of cookies: 0 for an empty string, else the number of `;`-separated pieces | high, not executed | `ToolbarDiagnostics.CookieCountAsWritten` | `ToolbarDiagnostics.CookieCount` |
