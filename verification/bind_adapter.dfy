/**
 * The directory bind adapter: one authentication attempt against one
 * directory server (`authenticateAndGetUserGroupsFromAD` in ldap.go).
 * The TLS dial and the LDAP simple bind are network calls; they are the
 * two functions of a `Directory` value, so that each server's behaviour
 * is an input of the model.
 */
module BindAdapter {
  import opened Wrappers
  import opened GoStrings

  /** The listener's directory configuration (the fields the login path reads). */
  datatype ADConfig = ADConfig(
    servers: seq<string>,
    tlsPort: int,
    baseDN: string,
    skipTLSVerify: bool)

  /** The user record as the login path sees it; the user name is a Go `*string`. */
  datatype User = User(username: Option<string>, firstName: string, lastName: string)

  /** `sord`: the string a `*string` points to, or "" for nil. */
  function Sord(p: Option<string>): string
  {
    match p
    case Some(v) => v
    case None => ""
  }

  /** What `ldap.DialTLS` returned: a connection, or an error with its text. */
  datatype DialResult = DialFailed(cause: string) | Dialed

  /** What `Bind` on the connection returned: an error with its text, or a verdict. */
  datatype BindResult = BindFailed(cause: string) | Bound(ok: bool)

  /**
   * The directory servers' behaviour.
   * `dial(address, serverName, insecureSkipVerify)` opens a TLS connection;
   * `bind(server, dn, password)` performs a simple bind on a connection to `server`.
   */
  datatype Directory = Directory(
    dial: (string, string, bool) -> DialResult,
    bind: (string, string, string) -> BindResult)

  const ContactErrorPrefix := "error while contacting AD - "
  const BindErrorPrefix := "error while contacting AD, likely invalid credentials - "
  const RejectedMessage := "invalid credentials"

  /**
   * The distinguished name the bind uses, `CN=<first> <last>,<baseDN>`:
   * the common-name attribute, the first and last name separated by one
   * space, a comma, then the configured base naming context.
   */
  function BindDN(first: string, last: string, baseDN: string): (dn: string)
    ensures |dn| == |first| + |last| + |baseDN| + 5
    ensures dn[..3] == "CN="
    ensures dn[3..3 + |first|] == first
    ensures dn[3 + |first|] == ' '
    ensures dn[4 + |first|..4 + |first| + |last|] == last
    ensures dn[4 + |first| + |last|] == ','
    ensures dn[5 + |first| + |last|..] == baseDN
  {
    "CN=" + first + " " + last + "," + baseDN
  }

  /** The dial address, `fmt.Sprintf("%s:%d", server, port)`. */
  function ServerAddress(server: string, port: int): (address: string)
    ensures |address| == |server| + 1 + |FormatInt(port)|
    ensures address[..|server|] == server
    ensures address[|server|] == ':'
    ensures address[|server| + 1..] == FormatInt(port)
  {
    server + ":" + FormatInt(port)
  }

  /**
   * One authentication attempt against `server`, as the error it yields
   * (None is success). The group search is disabled in the source, so a
   * successful attempt yields no groups and only its error is modelled.
   */
  function AuthenticateAndGetUserGroupsFromAD(
    config: ADConfig, server: string, password: string,
    first: string, last: string, dir: Directory): (err: Option<string>)
    ensures err.None? <==>
      dir.dial(ServerAddress(server, config.tlsPort), server, config.skipTLSVerify).Dialed? &&
      dir.bind(server, BindDN(first, last, config.baseDN), password) == Bound(true)
    ensures dir.dial(ServerAddress(server, config.tlsPort), server, config.skipTLSVerify).DialFailed? ==>
      err == Some(ContactErrorPrefix + dir.dial(ServerAddress(server, config.tlsPort), server, config.skipTLSVerify).cause)
    ensures dir.dial(ServerAddress(server, config.tlsPort), server, config.skipTLSVerify).Dialed? ==>
      match dir.bind(server, BindDN(first, last, config.baseDN), password)
      case BindFailed(cause) => err == Some(BindErrorPrefix + cause)
      case Bound(ok) => err == if ok then None else Some(RejectedMessage)
  {
    match dir.dial(ServerAddress(server, config.tlsPort), server, config.skipTLSVerify)
    case DialFailed(cause) => Some(ContactErrorPrefix + cause)
    case Dialed =>
      match dir.bind(server, BindDN(first, last, config.baseDN), password)
      case BindFailed(cause) => Some(BindErrorPrefix + cause)
      case Bound(ok) => if ok then None else Some(RejectedMessage)
  }
}
