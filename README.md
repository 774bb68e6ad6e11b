# Payment QR page — a Dafny model of its presentation logic

The page offers one button per configured payment channel (Alipay, WeChat Pay, Tenpay).
A click may try to launch the payment app through a URL scheme. It then opens a modal
dialog with the channel's QR code, composed on a 320×320 canvas with the logo drawn in
the middle. How the dialog looks depends on the browser and the operating system that
the user-agent parser reports. There are four variants, decided first-match-wins:

1. QQ.
2. WeChat.
3. iOS or a download-blocking vendor browser ("restricted").
4. Everything else ("generic").

On load the page closes the dialog. It may jump to Alipay when the query has `open=true`.
Inside WeChat it clicks the WeChat Pay button itself.

The model has these modules:

- `Device`: the user agent as two strings, the browser name and the OS name. The decision
  chain maps them to a `Variant`.
- `PayConfig`: the configuration file. It has an optional entry per channel and an
  optional logo. JavaScript truthiness of `open_url` and `qrlogo` is `Truthy`.
- `Composer`: what `showqrcode` draws. The encoder and the image loader are foreign code.
  Their success or failure is an input (`encodeOk`, `logoOk`). The encoder leaves an opaque
  `QrMatrix` token that records its options: width 320, margin 1, error correction H. The
  exported image is `PngData(canvas)`.
- `Query`: the page-load test of `location.search`. `RegexSearch` follows the regex
  `(^|&)open=([^&]*)(&|$)` with its `i` flag, one position at a time, leftmost match first.
  A second, independent definition splits the query on `&` and takes the value of the first
  segment whose key is `open`. `RegexIsFirstSegment` proves the two agree on every query.
  `Split` and `Join` are proved inverse to each other.
- `Dialog`: the written elements as values. `Element` holds one element's display, HTML,
  src, href and download name. `Dom` holds the seven elements plus the log of attempted
  navigations. `Markup` says which elements exist, because `getElementById` may return
  null. There is one function per operation. Opening goes through an explicit decision
  table (`PresentationOf`). The lemmas state what the page promises.
- `Page`: the class `Page`. Its fields are the elements and the navigation log. Its methods
  update them step by step as the script does: first the reset, then the overwrite in the
  chosen branch. Each method's postcondition says its final state is the matching `Dialog`
  function of the old state.

Where `openDialog` throws, the model records the throw. The promise from the async
function is rejected and nothing after the throw runs. This happens in three cases:

- `currentqrcode` is missing.
- `titleinfo` is missing.
- The WeChat branch runs with no WeChat Pay entry. `DATA.wechatpay.wechattitle` then throws,
  for example when Alipay is clicked inside WeChat on a page without WeChat Pay.

Each case is an `Outcome.Threw` result that keeps the state written so far.

Some behaviours of the code worth knowing:

- An encoder failure is caught and logged (index.js:45-47), and a blank canvas is still
  exported and shown. See `Dialog.EncodeFailureNotFatal`.
- Closing empties `currentqrcode`'s HTML content but not its `src` (index.js:68-75). The image stays bound,
  and so does the save button's link. See `Dialog.CloseEffect`.
- The app-switch button is shown by setting its display to `""`, not to a named value.
- The WeChat variant writes nothing to the save button beyond the reset, which hides it.

## Model

| member | source | states |
|---|---|---|
| Device.VariantTable | index.js:99-113 | each variant is chosen exactly when its condition is the first in the chain to hold; generic means not iOS and a browser outside QQ, WeChat and the four restricted names |
| Device.QQWhateverTheOS | index.js:99-101 | in QQ the variant is QQ whatever the operating system |
| Device.WeChatBeforeRestricted | index.js:99-110 | WeChat that also meets the restricted test (WeChat on iOS) gets the WeChat variant |
| Composer.Compose | index.js:31-65 | the canvas is 320×320 with smoothing off; it holds the QR matrix (width 320, margin 1, level H) exactly when the encode succeeded, and the logo exactly when one is configured and loaded; the logo is at (138,138), 44×44, centred and inside the canvas |
| Composer.LogoFailureIsNoLogo | index.js:54-63 | a logo that fails to load gives the same image as no logo configured |
| Composer.NoLogoConfigured | index.js:55-60 | without a logo the image is the bare code, or blank if the encode failed, whatever the loader would do |
| Query.ValueEnd | index.js:175 | the greedy `[^&]*` run stops at the first `&` after its start, or at the end |
| Query.RegexIsFirstSegment | index.js:175-176 | the regex captures the value of the first `&`-separated segment whose key is `open` in any letter case, and fails exactly when no segment has that key |
| Query.FirstOpenWins | index.js:175-177 | `?open=false&open=true` reads "false" |
| Query.KeyCaseValueExact | index.js:175-177 | the key matches in any case (`OPEN=true` reads "true"); the value is kept as written (`open=TRUE` reads "TRUE") |
| Query.OtherKeyIgnored | index.js:175-176 | a key that only ends in `open` (`reopen=true`) does not match |
| Device.VariantOf | index.js:99-113 | the decision chain: QQ, then WeChat, then iOS or a restricted browser, then generic; what it selects is stated by `Device.VariantTable` |
| Query.MatchAt | index.js:175-176 | the regex tried at one position: `^` or `&`, then `open=` in any case, then the greedy value up to `&` or the end |
| Query.RegexSearch | index.js:175-176 | the leftmost match at or after a position, as `match` returns it; proved equal to the segment reference by `Query.RegexIsFirstSegment` |
| Query.OpenParam | index.js:176-177 | group 2 of the regex applied to `search.substr(1)`; its values on sample queries are stated by `Query.FirstOpenWins`, `Query.KeyCaseValueExact` and `Query.OtherKeyIgnored` |
| Query.Split | index.js:175-176 | not a model of source lines: the independent reference, `q.split("&")`, proved to yield at least one segment and no segment containing `&` |
| Query.Join | index.js:175-176 | not a model of source lines: the inverse of `Split` used to check the reference (`Query.JoinSplit`, `Query.SplitJoin`) |
| Query.FirstOpenValue | index.js:175-176 | not a model of source lines: the reference value, that of the first segment whose key is `open`; related to the regex by `Query.RegexIsFirstSegment` |
| Query.JoinSplit | index.js:175-176 | reference sanity check: joining the segments of a query with `&` gives the query back |
| Query.SplitJoin | index.js:175-176 | reference sanity check: splitting a join of `&`-free segments gives the segments back |
| Dialog.AfterClose | index.js:68-75 | `closeqrcode` on the element values; its effect is stated by `Dialog.CloseEffect` and `Dialog.CloseIdempotent` |
| Dialog.Revealed | index.js:27-28 | the container shown ("flex") when it exists, before the image is composed |
| Dialog.PresentationOf | index.js:98-122 | the decision table: per variant, the title, the save link, and the close and open-in-browser displays; None for the WeChat row without a WeChat Pay entry |
| Dialog.Present | index.js:94-121 | writes one row of the table into the elements that exist |
| Dialog.AfterOpen | index.js:81-123 | `openDialog` on the element values, with its three throw points; its effect is stated by `Dialog.OpenFrame`, `Dialog.OpenMissingElement` and the four variant lemmas |
| Dialog.AfterAlipayClick | index.js:128-137 | the Alipay handler on the element values; stated by `Dialog.AlipayClickEffect` |
| Dialog.AfterWeChatPayClick | index.js:139-151 | the WeChat Pay handler on the element values; stated by `Dialog.WeChatPayClickEffect` |
| Dialog.AfterTenpayClick | index.js:153-165 | the Tenpay handler on the element values; stated by `Dialog.TenpayClickEffect` |
| Dialog.AfterLoad | index.js:170-193 | the load handler on the element values; stated by `Dialog.LoadNavigation`, `Dialog.LoadInWeChat` and `Dialog.LoadOutsideWeChat` |
| Dialog.CloseEffect | index.js:68-75 | closing empties the code element's content, turns a "flex" container to "none", leaves any other display as it was, and changes nothing else |
| Dialog.CloseIdempotent | index.js:68-75 | closing twice leaves the same state as closing once |
| Dialog.OpenFrame | index.js:26-123 | every open shows the container ("flex"), binds the composed PNG into `currentqrcode`, and leaves the app switch, the navigation log and the code element's content untouched |
| Dialog.OpenMissingElement | index.js:82-87 | without `currentqrcode` or `titleinfo` the call throws and the title and the three buttons are untouched |
| Dialog.QQVariant | index.js:86-101 | in QQ: other title, save button hidden, close button "block", open-in-browser "none" |
| Dialog.WeChatVariant | index.js:86-106 | in WeChat, on any OS: the WeChat title from configuration, save hidden, close "none", open-in-browser "block" |
| Dialog.WeChatWithoutEntry | index.js:86-104 | in WeChat without a WeChat Pay entry the call throws, leaving the reset state: other title, close "block", open-in-browser "none" |
| Dialog.RestrictedVariant | index.js:86-112 | not QQ or WeChat, and iOS or a restricted browser: other title, save hidden, close "block", open-in-browser "none" |
| Dialog.GenericVariant | index.js:82-121 | otherwise: the title, save button "inline-block" labelled with the save text, its href the same image bound to `currentqrcode`, download name `qrcode.png`, close "block" |
| Dialog.EncodeFailureNotFatal | index.js:37-47 | after an encode failure the dialog still completes and binds a PNG image with no QR matrix drawn |
| Dialog.AlipayClickEffect | index.js:128-137 | Alipay always hides the app switch and records one navigation to `open_url` exactly when it is truthy |
| Dialog.WeChatPayClickEffect | index.js:139-151 | WeChat Pay sets the app switch to display "", href `weixin://scanqrcode` and the configured text on iOS outside WeChat when the element exists; otherwise it leaves it unchanged; it never navigates |
| Dialog.TenpayClickEffect | index.js:153-165 | Tenpay sets the app switch to the `mqq://qrcode/scan_qrcode...` scheme and its text on iOS and on Android when the element exists; otherwise it leaves it unchanged; it never navigates |
| Dialog.UnboundButtons | index.js:128-165 | a button whose channel is not configured, or that is missing from the markup, does nothing |
| Dialog.LoadNavigation | index.js:174-181 | loading records a navigation to Alipay's `open_url` exactly when the first `open` parameter is "true", Alipay is configured and `open_url` is truthy |
| Dialog.LoadIgnoresLaterOpen | index.js:175-180 | the query `?open=false&open=true` never navigates on load |
| Dialog.LoadInWeChat | index.js:170-193 | inside WeChat, with WeChat Pay configured, loading ends with the WeChat dialog open: its title, container "flex", close "none", open-in-browser "block", app switch untouched |
| Dialog.LoadOutsideWeChat | index.js:170-193 | outside WeChat, loading changes the elements exactly as closing does |
| Page.Page.ShowQrCode | index.js:26-66 | shows the container, then returns the PNG export of the composed canvas |
| Page.Page.CloseQrCode | index.js:68-79 | the state after the step-by-step close is the close function of the old state |
| Page.Page.OpenDialog | index.js:81-123 | the reset-then-overwrite branch chain ends in the decision table's state and outcome |
| Page.Page.AlipayClick | index.js:128-137 | the handler's final state is that of the Alipay click function |
| Page.Page.WeChatPayClick | index.js:139-151 | the handler's final state is that of the WeChat Pay click function |
| Page.Page.TenpayClick | index.js:153-165 | the handler's final state is that of the Tenpay click function |
| Page.Page.Load | index.js:170-194 | the load handler's final state is that of the page-load function |

## Left out

- QR matrix generation and canvas rasterisation (`QRCode.toCanvas`, `drawImage`, `toDataURL`),
  index.js:38-43, 50-51, 59, 65. These are a foreign library and pixel data. The encoder is
  an opaque token and its failure is an input. The model also assumes the encoder keeps
  the canvas at 320×320.
- `loadBrowserImage`, index.js:15-24. It loads an image over the network. The model keeps
  only its success or failure (`logoOk`).
- The user-agent parser, index.js:10-12. It is a foreign library, so `browser.name` and
  `os.name` are given strings.
- Real navigation, `console` output, and the QQ tip image and banner, index.js:178,
  184-187. These are side effects with no logic to check. Navigation is an appended log
  entry.
- Interleaving of overlapping async clicks. This is concurrency. Each call's steps run as
  one sequence, including its awaits.
- Configuration fields that are missing or not strings. Assigning `undefined` to
  `innerHTML` is not modelled. Every channel string is present.
- `vite.config.js`. It is build and dev-server configuration.
