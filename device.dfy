/**
 * The parsed user agent and the presentation variant it selects.  The parser itself is a
 * foreign library; its two outputs, the browser name and the operating-system name, are
 * taken as given strings ("" when the parser recognised nothing).
 */
module Device {

  datatype UserAgent = UserAgent(browserName: string, osName: string)

  /** Vendor browsers that block downloads; membership is the `indexOf(...) != -1` test. */
  const RestrictedBrowsers: seq<string> := ["MIUI Browser", "UCBrowser", "Quark", "baidu"]

  predicate IsIOS(ua: UserAgent) { ua.osName == "iOS" }

  predicate IsAndroid(ua: UserAgent) { ua.osName == "Android" }

  /** The third condition of the dialog's decision chain: iOS, or a restricted browser. */
  predicate IsRestricted(ua: UserAgent) {
    IsIOS(ua) || ua.browserName in RestrictedBrowsers
  }

  /** The four ways the dialog is presented. */
  datatype Variant = QQ | WeChat | Restricted | Generic

  /** The decision chain of the dialog, evaluated in order: the first test that holds wins. */
  function VariantOf(ua: UserAgent): Variant {
    if ua.browserName == "QQ" then QQ
    else if ua.browserName == "WeChat" then WeChat
    else if IsRestricted(ua) then Restricted
    else Generic
  }

  /**
   * Each variant is selected exactly when its row of the table is the first that matches.
   * The generic row spells the six browser names out on purpose, so that the statement does
   * not lean on `RestrictedBrowsers`.
   */
  lemma VariantTable(ua: UserAgent)
    ensures VariantOf(ua) == QQ <==> ua.browserName == "QQ"
    ensures VariantOf(ua) == WeChat <==> ua.browserName == "WeChat"
    ensures VariantOf(ua) == Restricted <==>
      ua.browserName != "QQ" && ua.browserName != "WeChat" && IsRestricted(ua)
    ensures VariantOf(ua) == Generic <==>
      !IsIOS(ua) && ua.browserName !in ["QQ", "WeChat", "MIUI Browser", "UCBrowser", "Quark", "baidu"]
  {
  }

  /** The QQ variant does not depend on the operating system. */
  lemma QQWhateverTheOS(ua: UserAgent, os: string)
    requires ua.browserName == "QQ"
    ensures VariantOf(ua) == VariantOf(ua.(osName := os)) == QQ
  {
  }

  /** WeChat on iOS matches both the second and the third test; the second wins. */
  lemma WeChatBeforeRestricted(ua: UserAgent)
    requires ua.browserName == "WeChat" && IsRestricted(ua)
    ensures VariantOf(ua) == WeChat
  {
  }

}
