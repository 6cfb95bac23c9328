/**
 * The parsed form of a request URL, standing in for an Addressable::URI.
 * Parsing itself is not modelled: the core receives the parsed record and
 * renders it back to text with `ToString` (`to_s`).
 */
module Urls {
  import opened Wrappers
  import opened Text

  predicate IsHostChar(ch: char)
  {
    'a' <= ch <= 'z' || 'A' <= ch <= 'Z' || '0' <= ch <= '9' || ch == '-' || ch == '.'
  }

  /** A host name made of letters, digits, `-` and `.`. */
  type Host = h: string | forall i :: 0 <= i < |h| ==> IsHostChar(h[i])

  /** The `user[:password]` part of an authority. */
  datatype UserInfo = UserInfo(user: string, password: Option<string>)

  /**
   * `port` is the port written in the URL (Addressable's `port`), `None`
   * when the URL leaves it implicit.
   */
  datatype Uri = Uri(
    scheme: string,
    userinfo: Option<UserInfo>,
    host: Host,
    port: Option<nat>,
    path: string,
    query: Option<string>,
    fragment: Option<string>)

  function UserInfoText(u: UserInfo): string
  {
    u.user + (match u.password case None => "" case Some(p) => ":" + p)
  }

  /** `uri.to_s`: scheme, authority, path, query and fragment. */
  function ToString(u: Uri): string
  {
    u.scheme + "://"
    + (match u.userinfo case None => "" case Some(ui) => UserInfoText(ui) + "@")
    + u.host
    + (match u.port case None => "" case Some(p) => ":" + NatToString(p))
    + u.path
    + (match u.query case None => "" case Some(q) => "?" + q)
    + (match u.fragment case None => "" case Some(f) => "#" + f)
  }

  /** `uri.omit(:port)`: the same URL without an explicit port. */
  function OmitPort(u: Uri): Uri
  {
    u.(port := None)
  }
}
