/**
 * The page's configuration file: one optional entry per payment channel and an optional
 * logo.  Absent keys and JavaScript truthiness are made explicit with `Option`.
 */
module PayConfig {

  import opened Wrappers

  /**
   * A channel entry.  `wechatTitle` is only read from the WeChat Pay entry and `toAppText`
   * only from the WeChat Pay and Tenpay entries.
   */
  datatype Channel = Channel(
    url: string,
    title: string,
    otherTitle: string,
    saveText: string,
    toAppText: string,
    wechatTitle: string,
    openUrl: Option<string>)

  datatype Config = Config(
    alipay: Option<Channel>,
    wechatpay: Option<Channel>,
    tenpay: Option<Channel>,
    qrlogo: Option<string>)

  /** JavaScript truthiness of an optional string: present and not empty. */
  predicate Truthy(s: Option<string>) {
    s.Some? && s.value != ""
  }

}
