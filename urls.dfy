/**
 * The parts of a parsed URL the relay reads. `url::Url::parse` is a library
 * call whose internals are not part of this model: it is passed to the
 * operations that need it as a `Parser`, a total function from the URL text to
 * either the parsed URL or the parser's error description.
 */
module Urls {
  import opened Wrappers

  /** A TCP port, `u16` in the source. */
  type Port = p: nat | p < 0x1_0000

  /**
   * What `host_str()` and `port()` give back: the host, when the URL has one,
   * and the port, when the URL names one that is not the scheme's default.
   */
  datatype Url = Url(host: Option<string>, port: Option<Port>)

  type Parser = string -> Result<Url, string>

  /** `Url::parse(text).is_ok()`. */
  predicate Parses(parse: Parser, text: string) {
    parse(text).Success?
  }

  /**
   * The shape of a host as `host_str()` prints it: a domain or an IPv4
   * address has no ':'; an IPv6 address is written inside brackets.
   */
  predicate WellFormedHost(h: string) {
    ':' in h ==> h[0] == '[' && h[|h| - 1] == ']'
  }
}
