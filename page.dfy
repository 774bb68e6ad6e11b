/**
 * The page itself: the elements it writes, updated in place field by field as the script
 * does, the configuration and the parsed user agent it reads, and its event handlers.
 * Each method is proved to leave the state the matching function of module `Dialog` gives.
 */
module Page {

  import opened Wrappers
  import opened Device
  import opened PayConfig
  import opened Composer
  import opened Dialog

  class Page {
    const markup: Markup
    const config: Config
    const ua: UserAgent

    var showQr: Element
    var currentQr: Element
    var title: Element
    var saveBtn: Element
    var closeBtn: Element
    var openInBrowser: Element
    var toAppBtn: Element
    /** The URLs assigned to `window.location.href`, oldest first. */
    var navigations: seq<string>

    /** The elements' current values. */
    function View(): Dom
      reads this
    {
      Dom(showQr, currentQr, title, saveBtn, closeBtn, openInBrowser, toAppBtn, navigations)
    }

    /** The page as the markup and the configuration leave it, before any script runs. */
    constructor (markup: Markup, config: Config, ua: UserAgent, initial: Dom)
      ensures this.markup == markup && this.config == config && this.ua == ua
      ensures View() == initial
    {
      this.markup := markup;
      this.config := config;
      this.ua := ua;
      showQr := initial.showQr;
      currentQr := initial.currentQr;
      title := initial.title;
      saveBtn := initial.saveBtn;
      closeBtn := initial.closeBtn;
      openInBrowser := initial.openInBrowser;
      toAppBtn := initial.toAppBtn;
      navigations := initial.navigations;
    }

    /**
     * `showqrcode(url)`: show the container, draw the code and the logo on a fresh canvas,
     * and return the canvas as a PNG data URL.  `encodeOk` and `logoOk` are the outcomes of
     * the encoder and of loading the logo image; both failures are caught here.
     */
    method ShowQrCode(url: string, encodeOk: bool, logoOk: bool) returns (dataUrl: Href)
      modifies this
      ensures View() == Revealed(markup, old(View()))
      ensures dataUrl == PngData(Compose(url, config.qrlogo, encodeOk, logoOk))
    {
      if markup.hasShowQr {
        showQr := showQr.(display := "flex");
      }
      var canvas := Canvas(CanvasSize, CanvasSize, true, []);
      if encodeOk {
        canvas := canvas.(layers := canvas.layers + [QrMatrix(url, CanvasSize, QrMargin, High)]);
      }
      canvas := canvas.(smoothing := false);
      if Truthy(config.qrlogo) {
        if logoOk {
          var logo := Logo(config.qrlogo.value, LogoOffset, LogoOffset, LogoSize, LogoSize);
          canvas := canvas.(layers := canvas.layers + [logo]);
        }
      }
      dataUrl := PngData(canvas);
    }

    /** `closeqrcode`, also the close button's click handler. */
    method CloseQrCode()
      modifies this
      ensures View() == AfterClose(markup, old(View()))
    {
      if markup.hasCurrentQr {
        currentQr := currentQr.(html := "");
      }
      if markup.hasShowQr && showQr.display == "flex" {
        showQr := showQr.(display := "none");
      }
    }

    /**
     * `openDialog(ch)`: bind the composed image, reset the three buttons and the title, then
     * overwrite them in the first branch of the chain that applies.
     */
    method OpenDialog(ch: Channel, encodeOk: bool, logoOk: bool) returns (outcome: Outcome)
      modifies this
      ensures (View(), outcome) == AfterOpen(markup, config, ua, ch, encodeOk, logoOk, old(View()))
    {
      var dataUrl := ShowQrCode(ch.url, encodeOk, logoOk);
      if !markup.hasCurrentQr {
        return Threw;
      }
      currentQr := currentQr.(src := dataUrl);
      if !markup.hasTitle {
        return Threw;
      }
      ghost var bound := View();
      title := title.(html := ch.otherTitle);
      if markup.hasSaveBtn {
        saveBtn := saveBtn.(display := "none");
      }
      if markup.hasCloseBtn {
        closeBtn := closeBtn.(display := "block");
      }
      if markup.hasOpenInBrowser {
        openInBrowser := openInBrowser.(display := "none");
      }
      assert View() == Present(markup, bound, Reset(ch));
      if ua.browserName == "QQ" {
        title := title.(html := ch.otherTitle);
      } else if ua.browserName == "WeChat" {
        if config.wechatpay.None? {
          return Threw;
        }
        title := title.(html := config.wechatpay.value.wechatTitle);
        if markup.hasCloseBtn {
          closeBtn := closeBtn.(display := "none");
        }
        if markup.hasOpenInBrowser {
          openInBrowser := openInBrowser.(display := "block");
        }
        assert View() == Present(markup, bound, PresentationOf(WeChat, ch, config, dataUrl).value);
      } else if IsRestricted(ua) {
        title := title.(html := ch.otherTitle);
      } else {
        title := title.(html := ch.title);
        if markup.hasSaveBtn {
          saveBtn := saveBtn.(display := "inline-block", html := ch.saveText,
                              href := dataUrl, download := SaveName);
        }
        assert View() == Present(markup, bound, PresentationOf(Generic, ch, config, dataUrl).value);
      }
      outcome := Completed;
    }

    /** The Alipay button's click handler (bound only when Alipay is configured). */
    method AlipayClick(encodeOk: bool, logoOk: bool)
      modifies this
      ensures View() == AfterAlipayClick(markup, config, ua, encodeOk, logoOk, old(View()))
    {
      if config.alipay.None? || !markup.hasAlipayBtn {
        return;
      }
      if markup.hasToApp {
        toAppBtn := toAppBtn.(display := "none");
      }
      var openUrl := config.alipay.value.openUrl;
      if Truthy(openUrl) {
        navigations := navigations + [openUrl.value];
      }
      var _ := OpenDialog(config.alipay.value, encodeOk, logoOk);
    }

    /** The WeChat Pay button's click handler (bound only when WeChat Pay is configured). */
    method WeChatPayClick(encodeOk: bool, logoOk: bool)
      modifies this
      ensures View() == AfterWeChatPayClick(markup, config, ua, encodeOk, logoOk, old(View()))
    {
      if config.wechatpay.None? || !markup.hasWeChatPayBtn {
        return;
      }
      if IsIOS(ua) && ua.browserName != "WeChat" {
        if markup.hasToApp {
          toAppBtn := toAppBtn.(display := "", href := Link(WeixinScan),
                                html := config.wechatpay.value.toAppText);
        }
      }
      var _ := OpenDialog(config.wechatpay.value, encodeOk, logoOk);
    }

    /** The Tenpay button's click handler (bound only when Tenpay is configured). */
    method TenpayClick(encodeOk: bool, logoOk: bool)
      modifies this
      ensures View() == AfterTenpayClick(markup, config, ua, encodeOk, logoOk, old(View()))
    {
      if config.tenpay.None? || !markup.hasTenpayBtn {
        return;
      }
      if IsIOS(ua) || IsAndroid(ua) {
        if markup.hasToApp {
          toAppBtn := toAppBtn.(display := "", href := Link(MqqScan),
                                html := config.tenpay.value.toAppText);
        }
      }
      var _ := OpenDialog(config.tenpay.value, encodeOk, logoOk);
    }

    /**
     * The `DOMContentLoaded` handler, `search` being `window.location.search`: close the
     * dialog, navigate to Alipay when asked to by the query, and click WeChat Pay inside WeChat.
     */
    method Load(search: string, encodeOk: bool, logoOk: bool)
      modifies this
      ensures View() == AfterLoad(markup, config, ua, search, encodeOk, logoOk, old(View()))
    {
      CloseQrCode();
      if Query.OpenParam(search) == Some("true") && config.alipay.Some? {
        var openUrl := config.alipay.value.openUrl;
        if Truthy(openUrl) {
          navigations := navigations + [openUrl.value];
        }
      }
      if config.wechatpay.Some? && ua.browserName == "WeChat" {
        WeChatPayClick(encodeOk, logoOk);
      }
    }
  }

}
