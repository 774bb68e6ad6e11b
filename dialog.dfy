/**
 * The page's elements as values, and what each operation of the page does to them, written
 * as functions: closing the dialog, opening it for a channel (through the decision table of
 * the four variants), the three channel buttons and the page-load logic.  The class in
 * module `Page` performs the same operations step by step and is proved to end in the state
 * these functions give; the lemmas below state what the page promises about that state.
 */
module Dialog {

  import opened Wrappers
  import opened Device
  import opened PayConfig
  import opened Composer
  import opened Query

  /** The properties of one element the page writes. */
  datatype Element = Element(display: string, html: string, src: Href, href: Href, download: string)

  /** Which elements the page's markup contains (`getElementById` may find none). */
  datatype Markup = Markup(
    hasShowQr: bool,
    hasCurrentQr: bool,
    hasTitle: bool,
    hasSaveBtn: bool,
    hasCloseBtn: bool,
    hasOpenInBrowser: bool,
    hasToApp: bool,
    hasAlipayBtn: bool,
    hasWeChatPayBtn: bool,
    hasTenpayBtn: bool)

  /**
   * The elements `showqrcode`, `currentqrcode`, `titleinfo`, `saveqrbtn`, `qrcodeclose`,
   * `openinbrower` and `toappbtn`, and the log of navigations the page attempted.
   */
  datatype Dom = Dom(
    showQr: Element,
    currentQr: Element,
    title: Element,
    saveBtn: Element,
    closeBtn: Element,
    openInBrowser: Element,
    toAppBtn: Element,
    navigations: seq<string>)

  /** How a call of `openDialog` ends: normally, or with a TypeError that rejects its promise. */
  datatype Outcome = Completed | Threw

  const SaveName: string := "qrcode.png"
  const WeixinScan: string := "weixin://scanqrcode"
  const MqqScan: string := "mqq://qrcode/scan_qrcode?version=1&src_type=app"

  /** `closeqrcode`: empty the code element, and hide the container if it is shown. */
  function AfterClose(m: Markup, d: Dom): Dom {
    var cleared := if m.hasCurrentQr then d.(currentQr := d.currentQr.(html := "")) else d;
    if m.hasShowQr && cleared.showQr.display == "flex"
    then cleared.(showQr := cleared.showQr.(display := "none"))
    else cleared
  }

  /** The one DOM write of `showqrcode`: the container is shown before the image is composed. */
  function Revealed(m: Markup, d: Dom): Dom {
    if m.hasShowQr then d.(showQr := d.showQr.(display := "flex")) else d
  }

  /** The download the save button offers. */
  datatype SaveLink = SaveLink(caption: string, image: Href, filename: string)

  /** One row of the decision table: what the dialog shows. */
  datatype Presentation = Presentation(
    title: string,
    save: Option<SaveLink>,
    closeDisplay: string,
    openInBrowserDisplay: string)

  /** The state every call first resets the dialog to: the other title, only the close button. */
  function Reset(ch: Channel): Presentation {
    Presentation(ch.otherTitle, None, "block", "none")
  }

  /**
   * The decision table.  None when the WeChat row reads the WeChat-specific title from a
   * configuration that has no WeChat Pay entry.
   */
  function PresentationOf(v: Variant, ch: Channel, cfg: Config, image: Href): Option<Presentation> {
    match v
    case QQ => Some(Reset(ch))
    case WeChat =>
      if cfg.wechatpay.None? then None
      else Some(Presentation(cfg.wechatpay.value.wechatTitle, None, "none", "block"))
    case Restricted => Some(Reset(ch))
    case Generic => Some(Presentation(ch.title, Some(SaveLink(ch.saveText, image, SaveName)), "block", "none"))
  }

  /** Writes a presentation into the elements that exist; `titleinfo` is known to exist. */
  function Present(m: Markup, d: Dom, p: Presentation): Dom {
    d.(
      title := d.title.(html := p.title),
      saveBtn :=
        if !m.hasSaveBtn then d.saveBtn
        else if p.save.None? then d.saveBtn.(display := "none")
        else d.saveBtn.(display := "inline-block", html := p.save.value.caption,
                        href := p.save.value.image, download := p.save.value.filename),
      closeBtn := if m.hasCloseBtn then d.closeBtn.(display := p.closeDisplay) else d.closeBtn,
      openInBrowser :=
        if m.hasOpenInBrowser then d.openInBrowser.(display := p.openInBrowserDisplay)
        else d.openInBrowser)
  }

  /**
   * `openDialog(ch)`: show the container, compose the image, put it into `currentqrcode`,
   * then present the variant of the user agent.  A missing `currentqrcode` or `titleinfo`
   * element, or the WeChat row without a WeChat Pay entry, throws and leaves what was
   * written so far.
   */
  function AfterOpen(m: Markup, cfg: Config, ua: UserAgent, ch: Channel,
                     encodeOk: bool, logoOk: bool, d: Dom): (Dom, Outcome)
  {
    var image := PngData(Compose(ch.url, cfg.qrlogo, encodeOk, logoOk));
    var shown := Revealed(m, d);
    if !m.hasCurrentQr then (shown, Threw)
    else
      var bound := shown.(currentQr := shown.currentQr.(src := image));
      if !m.hasTitle then (bound, Threw)
      else match PresentationOf(VariantOf(ua), ch, cfg, image)
        case Some(p) => (Present(m, bound, p), Completed)
        case None => (Present(m, bound, Reset(ch)), Threw)
  }

  /** Records a best-effort navigation when the URL is truthy. */
  function Navigate(d: Dom, url: Option<string>): Dom {
    if Truthy(url) then d.(navigations := d.navigations + [url.value]) else d
  }

  /** Shows the app-switch button with the given scheme and caption, if the element exists. */
  function AppSwitch(m: Markup, d: Dom, scheme: string, caption: string): Dom {
    if m.hasToApp then d.(toAppBtn := d.toAppBtn.(display := "", href := Link(scheme), html := caption))
    else d
  }

  /** The Alipay button: hide the app switch, try `open_url`, open the dialog. */
  function AfterAlipayClick(m: Markup, cfg: Config, ua: UserAgent,
                            encodeOk: bool, logoOk: bool, d: Dom): Dom {
    if cfg.alipay.None? || !m.hasAlipayBtn then d
    else
      var ch := cfg.alipay.value;
      var hidden := if m.hasToApp then d.(toAppBtn := d.toAppBtn.(display := "none")) else d;
      AfterOpen(m, cfg, ua, ch, encodeOk, logoOk, Navigate(hidden, ch.openUrl)).0
  }

  /** The WeChat Pay button: offer `weixin://` on iOS outside WeChat, open the dialog. */
  function AfterWeChatPayClick(m: Markup, cfg: Config, ua: UserAgent,
                               encodeOk: bool, logoOk: bool, d: Dom): Dom {
    if cfg.wechatpay.None? || !m.hasWeChatPayBtn then d
    else
      var ch := cfg.wechatpay.value;
      var offered := if IsIOS(ua) && ua.browserName != "WeChat"
        then AppSwitch(m, d, WeixinScan, ch.toAppText) else d;
      AfterOpen(m, cfg, ua, ch, encodeOk, logoOk, offered).0
  }

  /** The Tenpay button: offer `mqq://` on iOS and Android, open the dialog. */
  function AfterTenpayClick(m: Markup, cfg: Config, ua: UserAgent,
                            encodeOk: bool, logoOk: bool, d: Dom): Dom {
    if cfg.tenpay.None? || !m.hasTenpayBtn then d
    else
      var ch := cfg.tenpay.value;
      var offered := if IsIOS(ua) || IsAndroid(ua)
        then AppSwitch(m, d, MqqScan, ch.toAppText) else d;
      AfterOpen(m, cfg, ua, ch, encodeOk, logoOk, offered).0
  }

  /** The page navigates to Alipay's `open_url` on load. */
  predicate AutoOpen(cfg: Config, search: string) {
    OpenParam(search) == Some("true") && cfg.alipay.Some? && Truthy(cfg.alipay.value.openUrl)
  }

  /** Page load: close, maybe navigate to Alipay, and click WeChat Pay inside WeChat. */
  function AfterLoad(m: Markup, cfg: Config, ua: UserAgent, search: string,
                     encodeOk: bool, logoOk: bool, d: Dom): Dom {
    var closed := AfterClose(m, d);
    var navigated :=
      if OpenParam(search) == Some("true") && cfg.alipay.Some? then Navigate(closed, cfg.alipay.value.openUrl)
      else closed;
    if cfg.wechatpay.Some? && ua.browserName == "WeChat"
    then AfterWeChatPayClick(m, cfg, ua, encodeOk, logoOk, navigated)
    else navigated
  }

  // ---------------------------------------------------------------------------------------
  // Closing

  /** Closing empties the code element, hides a shown container, and touches nothing else. */
  lemma CloseEffect(m: Markup, d: Dom)
    ensures var c := AfterClose(m, d);
      && c.currentQr == (if m.hasCurrentQr then d.currentQr.(html := "") else d.currentQr)
      && c.showQr.display ==
         (if m.hasShowQr && d.showQr.display == "flex" then "none" else d.showQr.display)
      && c.showQr.(display := d.showQr.display) == d.showQr
      && c.(showQr := d.showQr, currentQr := d.currentQr) == d
  {
  }

  /** Closing twice is closing once. */
  lemma CloseIdempotent(m: Markup, d: Dom)
    ensures AfterClose(m, AfterClose(m, d)) == AfterClose(m, d)
  {
  }

  // ---------------------------------------------------------------------------------------
  // Opening: the four variants

  /** What holds after every open, whatever the variant: the container is shown, the image is bound, the app switch, the navigations and the code element's content are untouched. */
  lemma OpenFrame(m: Markup, cfg: Config, ua: UserAgent, ch: Channel,
                  encodeOk: bool, logoOk: bool, d: Dom)
    ensures var (r, _) := AfterOpen(m, cfg, ua, ch, encodeOk, logoOk, d);
      && r.showQr == (if m.hasShowQr then d.showQr.(display := "flex") else d.showQr)
      && r.toAppBtn == d.toAppBtn
      && r.navigations == d.navigations
      && r.currentQr.html == d.currentQr.html
      && (m.hasCurrentQr ==> r.currentQr.src == PngData(Compose(ch.url, cfg.qrlogo, encodeOk, logoOk)))
  {
  }

  /** A missing code or title element makes `openDialog` throw before any variant is applied. */
  lemma OpenMissingElement(m: Markup, cfg: Config, ua: UserAgent, ch: Channel,
                           encodeOk: bool, logoOk: bool, d: Dom)
    requires !m.hasCurrentQr || !m.hasTitle
    ensures var (r, out) := AfterOpen(m, cfg, ua, ch, encodeOk, logoOk, d);
      out == Threw && r.title == d.title && r.saveBtn == d.saveBtn
      && r.closeBtn == d.closeBtn && r.openInBrowser == d.openInBrowser
  {
  }

  /** In QQ, whatever the operating system: the other title, no save button, the close button, no open-in-browser hint. */
  lemma QQVariant(m: Markup, cfg: Config, ua: UserAgent, ch: Channel,
                  encodeOk: bool, logoOk: bool, d: Dom)
    requires ua.browserName == "QQ" && m.hasCurrentQr && m.hasTitle
    ensures var (r, out) := AfterOpen(m, cfg, ua, ch, encodeOk, logoOk, d);
      && out == Completed
      && r.title.html == ch.otherTitle
      && (m.hasSaveBtn ==> r.saveBtn == d.saveBtn.(display := "none"))
      && (m.hasCloseBtn ==> r.closeBtn.display == "block")
      && (m.hasOpenInBrowser ==> r.openInBrowser.display == "none")
  {
  }

  /** In WeChat, on iOS too: the WeChat title, no close button, the open-in-browser hint, no save button. */
  lemma WeChatVariant(m: Markup, cfg: Config, ua: UserAgent, ch: Channel,
                      encodeOk: bool, logoOk: bool, d: Dom)
    requires ua.browserName == "WeChat" && cfg.wechatpay.Some? && m.hasCurrentQr && m.hasTitle
    ensures var (r, out) := AfterOpen(m, cfg, ua, ch, encodeOk, logoOk, d);
      && out == Completed
      && r.title.html == cfg.wechatpay.value.wechatTitle
      && (m.hasSaveBtn ==> r.saveBtn == d.saveBtn.(display := "none"))
      && (m.hasCloseBtn ==> r.closeBtn.display == "none")
      && (m.hasOpenInBrowser ==> r.openInBrowser.display == "block")
  {
  }

  /** In WeChat without a WeChat Pay entry the title lookup throws, after the reset. */
  lemma WeChatWithoutEntry(m: Markup, cfg: Config, ua: UserAgent, ch: Channel,
                           encodeOk: bool, logoOk: bool, d: Dom)
    requires ua.browserName == "WeChat" && cfg.wechatpay.None? && m.hasCurrentQr && m.hasTitle
    ensures var (r, out) := AfterOpen(m, cfg, ua, ch, encodeOk, logoOk, d);
      && out == Threw
      && r.title.html == ch.otherTitle
      && (m.hasCloseBtn ==> r.closeBtn.display == "block")
      && (m.hasOpenInBrowser ==> r.openInBrowser.display == "none")
  {
  }

  /** On iOS or in a restricted browser (not QQ, not WeChat): the other title, the close button, no save button, no hint. */
  lemma RestrictedVariant(m: Markup, cfg: Config, ua: UserAgent, ch: Channel,
                          encodeOk: bool, logoOk: bool, d: Dom)
    requires ua.browserName != "QQ" && ua.browserName != "WeChat" && IsRestricted(ua)
    requires m.hasCurrentQr && m.hasTitle
    ensures var (r, out) := AfterOpen(m, cfg, ua, ch, encodeOk, logoOk, d);
      && out == Completed
      && r.title.html == ch.otherTitle
      && (m.hasSaveBtn ==> r.saveBtn == d.saveBtn.(display := "none"))
      && (m.hasCloseBtn ==> r.closeBtn.display == "block")
      && (m.hasOpenInBrowser ==> r.openInBrowser.display == "none")
  {
  }

  /** Everywhere else: the title, and a save button that downloads the displayed image as `qrcode.png`. */
  lemma GenericVariant(m: Markup, cfg: Config, ua: UserAgent, ch: Channel,
                       encodeOk: bool, logoOk: bool, d: Dom)
    requires VariantOf(ua) == Generic && m.hasCurrentQr && m.hasTitle
    ensures var (r, out) := AfterOpen(m, cfg, ua, ch, encodeOk, logoOk, d);
      && out == Completed
      && r.title.html == ch.title
      && (m.hasSaveBtn ==>
            && r.saveBtn.display == "inline-block" && r.saveBtn.html == ch.saveText
            && r.saveBtn.href == r.currentQr.src && r.saveBtn.download == SaveName)
      && (m.hasCloseBtn ==> r.closeBtn.display == "block")
      && (m.hasOpenInBrowser ==> r.openInBrowser.display == "none")
  {
  }

  /** A failed encode is not fatal: the dialog still completes and binds a (blank) image. */
  lemma EncodeFailureNotFatal(m: Markup, cfg: Config, ua: UserAgent, ch: Channel, logoOk: bool, d: Dom)
    requires m.hasCurrentQr && m.hasTitle && (VariantOf(ua) == WeChat ==> cfg.wechatpay.Some?)
    ensures var (r, out) := AfterOpen(m, cfg, ua, ch, false, logoOk, d);
      && out == Completed
      && r.currentQr.src.PngData?
      && QrMatrix(ch.url, CanvasSize, QrMargin, High) !in r.currentQr.src.image.layers
  {
  }

  // ---------------------------------------------------------------------------------------
  // The channel buttons

  /** Alipay always hides the app switch and records a navigation exactly when `open_url` is truthy. */
  lemma AlipayClickEffect(m: Markup, cfg: Config, ua: UserAgent, encodeOk: bool, logoOk: bool, d: Dom)
    requires cfg.alipay.Some? && m.hasAlipayBtn
    ensures var r := AfterAlipayClick(m, cfg, ua, encodeOk, logoOk, d);
      && r.toAppBtn == (if m.hasToApp then d.toAppBtn.(display := "none") else d.toAppBtn)
      && r.navigations == d.navigations +
         (if Truthy(cfg.alipay.value.openUrl) then [cfg.alipay.value.openUrl.value] else [])
  {
  }

  /** WeChat Pay offers `weixin://scanqrcode` on iOS outside WeChat when the button exists, and otherwise leaves the app switch alone. */
  lemma WeChatPayClickEffect(m: Markup, cfg: Config, ua: UserAgent, encodeOk: bool, logoOk: bool, d: Dom)
    requires cfg.wechatpay.Some? && m.hasWeChatPayBtn
    ensures var r := AfterWeChatPayClick(m, cfg, ua, encodeOk, logoOk, d);
      (!(m.hasToApp && IsIOS(ua) && ua.browserName != "WeChat") ==> r.toAppBtn == d.toAppBtn)
      && (m.hasToApp && IsIOS(ua) && ua.browserName != "WeChat" ==>
            r.toAppBtn == d.toAppBtn.(display := "", href := Link(WeixinScan),
                                      html := cfg.wechatpay.value.toAppText))
      && r.navigations == d.navigations
  {
    var ch := cfg.wechatpay.value;
    var offered := if IsIOS(ua) && ua.browserName != "WeChat"
      then AppSwitch(m, d, WeixinScan, ch.toAppText) else d;
    OpenFrame(m, cfg, ua, ch, encodeOk, logoOk, offered);
  }

  /** Tenpay offers the `mqq://` scan scheme on iOS and Android when the button exists, and otherwise leaves the app switch alone. */
  lemma TenpayClickEffect(m: Markup, cfg: Config, ua: UserAgent, encodeOk: bool, logoOk: bool, d: Dom)
    requires cfg.tenpay.Some? && m.hasTenpayBtn
    ensures var r := AfterTenpayClick(m, cfg, ua, encodeOk, logoOk, d);
      (!(m.hasToApp && (IsIOS(ua) || IsAndroid(ua))) ==> r.toAppBtn == d.toAppBtn)
      && (m.hasToApp && (IsIOS(ua) || IsAndroid(ua)) ==>
            r.toAppBtn == d.toAppBtn.(display := "", href := Link(MqqScan),
                                      html := cfg.tenpay.value.toAppText))
      && r.navigations == d.navigations
  {
  }

  /** A button whose channel is not configured, or that is not in the markup, has no handler. */
  lemma UnboundButtons(m: Markup, cfg: Config, ua: UserAgent, encodeOk: bool, logoOk: bool, d: Dom)
    ensures (cfg.alipay.None? || !m.hasAlipayBtn) ==> AfterAlipayClick(m, cfg, ua, encodeOk, logoOk, d) == d
    ensures (cfg.wechatpay.None? || !m.hasWeChatPayBtn) ==> AfterWeChatPayClick(m, cfg, ua, encodeOk, logoOk, d) == d
    ensures (cfg.tenpay.None? || !m.hasTenpayBtn) ==> AfterTenpayClick(m, cfg, ua, encodeOk, logoOk, d) == d
  {
  }

  // ---------------------------------------------------------------------------------------
  // Page load

  /** Loading records a navigation to Alipay's `open_url` exactly when the first `open` parameter is "true", Alipay is configured and its `open_url` is truthy. */
  lemma LoadNavigation(m: Markup, cfg: Config, ua: UserAgent, search: string,
                       encodeOk: bool, logoOk: bool, d: Dom)
    ensures var r := AfterLoad(m, cfg, ua, search, encodeOk, logoOk, d);
      r.navigations == d.navigations + (if AutoOpen(cfg, search) then [cfg.alipay.value.openUrl.value] else [])
  {
    var closed := AfterClose(m, d);
    var navigated :=
      if OpenParam(search) == Some("true") && cfg.alipay.Some? then Navigate(closed, cfg.alipay.value.openUrl)
      else closed;
    if cfg.wechatpay.Some? && ua.browserName == "WeChat" && m.hasWeChatPayBtn {
      OpenFrame(m, cfg, ua, cfg.wechatpay.value, encodeOk, logoOk, navigated);
    }
  }

  /** `?open=false&open=true` never navigates on load. */
  lemma LoadIgnoresLaterOpen(m: Markup, cfg: Config, ua: UserAgent, encodeOk: bool, logoOk: bool, d: Dom)
    ensures AfterLoad(m, cfg, ua, "?open=false&open=true", encodeOk, logoOk, d).navigations == d.navigations
  {
    FirstOpenWins();
    LoadNavigation(m, cfg, ua, "?open=false&open=true", encodeOk, logoOk, d);
  }

  /** Inside WeChat the page opens the WeChat Pay dialog by itself, sticky and with the open-in-browser hint. */
  lemma LoadInWeChat(m: Markup, cfg: Config, ua: UserAgent, search: string,
                     encodeOk: bool, logoOk: bool, d: Dom)
    requires ua.browserName == "WeChat" && cfg.wechatpay.Some?
    requires m.hasWeChatPayBtn && m.hasCurrentQr && m.hasTitle
    ensures var r := AfterLoad(m, cfg, ua, search, encodeOk, logoOk, d);
      && r.title.html == cfg.wechatpay.value.wechatTitle
      && (m.hasShowQr ==> r.showQr.display == "flex")
      && (m.hasCloseBtn ==> r.closeBtn.display == "none")
      && (m.hasOpenInBrowser ==> r.openInBrowser.display == "block")
      && r.toAppBtn == d.toAppBtn
  {
  }

  /** Outside WeChat, loading only closes the dialog and perhaps navigates. */
  lemma LoadOutsideWeChat(m: Markup, cfg: Config, ua: UserAgent, search: string,
                          encodeOk: bool, logoOk: bool, d: Dom)
    requires ua.browserName != "WeChat"
    ensures AfterLoad(m, cfg, ua, search, encodeOk, logoOk, d).(navigations := d.navigations)
      == AfterClose(m, d)
  {
  }

}
