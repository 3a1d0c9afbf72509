/**
 * The authentication orchestrator (`authenticate`, `authenticateAgainstAD`
 * and `connectADServer` in ldap.go): the credential gate, one attempt per
 * configured directory server in order, and the stop/continue policy that
 * decides between first success, terminal credential failure and moving on
 * to the next server.
 */
module Login {
  import opened Wrappers
  import opened GoStrings
  import opened BindAdapter
  import opened Minting

  /** Everything outside this file that a login needs: directory, stores, signer and clock. */
  datatype Services = Services(
    dir: Directory,
    store: Store,
    sign: (Claims, string) -> Result<string, string>,
    now: int)

  /** What one server attempt yields: a token, the user's groups and an error (None is Go's nil). */
  datatype Attempt = Attempt(token: string, groups: seq<string>, err: Option<string>)

  const InvalidCredentials := "Invalid credentials"
  const CantContact := "Can't contact LDAP server"
  const CouldNotConnect := "could not connect to LDAP server"
  const NoServers := "no AD servers found in the listener config"
  const KeyNotInitialized := "signing key not initialized for authentication"
  const EmptyCredentials := "Both a username and password cannot be empty"

  /** The text `authenticate` puts in front of an error from the server loop. */
  function LoginFailurePrefix(username: string): string {
    "failed login for [" + username + "]: "
  }

  /**
   * One server attempt: bind against `server`, and only if that succeeded
   * mint a token. Groups are always empty because the group search is
   * disabled.
   */
  function ConnectADServer(
    config: ADConfig, server: string, user: User, password: string,
    orgID: string, key: string, svc: Services): (a: Attempt)
    ensures a.groups == []
    ensures a.err.Some? ==> a.token == ""
    // a failed bind is reported as is, and the minter is never consulted
    ensures AuthenticateAndGetUserGroupsFromAD(config, server, password, user.firstName, user.lastName, svc.dir).Some? ==>
      a.err == AuthenticateAndGetUserGroupsFromAD(config, server, password, user.firstName, user.lastName, svc.dir)
    // after a successful bind the attempt is exactly the minter's outcome
    ensures AuthenticateAndGetUserGroupsFromAD(config, server, password, user.firstName, user.lastName, svc.dir).None? ==>
      match GenerateJWT(Sord(user.username), orgID, key, svc.now, svc.store, svc.sign)
      case Ok(t) => a.token == t && a.err.None?
      case Err(e) => a.err == Some(e)
  {
    var err := AuthenticateAndGetUserGroupsFromAD(config, server, password, user.firstName, user.lastName, svc.dir);
    if err.Some? then Attempt("", [], err)
    else
      match GenerateJWT(Sord(user.username), orgID, key, svc.now, svc.store, svc.sign)
      case Ok(t) => Attempt(t, [], None)
      case Err(e) => Attempt("", [], Some(e))
  }

  /** The attempts `connect` yields for `servers`, in configured order. */
  function Attempts(servers: seq<string>, connect: string -> Attempt): seq<Attempt>
  {
    seq(|servers|, i requires 0 <= i < |servers| => connect(servers[i]))
  }

  /** connectADServer with everything but the server fixed, as `authenticateAgainstAD` calls it. */
  function Connector(
    config: ADConfig, user: User, password: string, orgID: string,
    key: string, svc: Services): string -> Attempt
  {
    server => ConnectADServer(config, server, user, password, orgID, key, svc)
  }

  /** An error whose text contains "Invalid credentials" (case-sensitive) stops the loop. */
  predicate Terminal(msg: string) {
    Contains(msg, InvalidCredentials)
  }

  /** An attempt that ends the loop: a success or a terminal credential failure. */
  predicate Decisive(a: Attempt) {
    a.err.None? || Terminal(a.err.value)
  }

  /** The position of the first decisive attempt, or |outs| when there is none. */
  function FirstDecisive(outs: seq<Attempt>): (k: nat)
    ensures k <= |outs|
    ensures forall j :: 0 <= j < k ==> !Decisive(outs[j])
    ensures k < |outs| ==> Decisive(outs[k])
  {
    if |outs| == 0 then 0
    else if Decisive(outs[0]) then 0
    else 1 + FirstDecisive(outs[1..])
  }

  /** How many servers the loop contacts: up to and including the first decisive one. */
  function Tried(outs: seq<Attempt>): (n: nat)
    ensures n <= |outs|
  {
    if FirstDecisive(outs) < |outs| then FirstDecisive(outs) + 1 else |outs|
  }

  /**
   * The rewrite after the loop: an error whose text contains
   * "Can't contact LDAP server" at an index greater than 0 becomes the
   * generic connection message; an occurrence only at index 0 is kept.
   */
  function Normalize(msg: string): (r: string)
    ensures Contains(msg, CantContact) && !MatchAt(msg, 0, CantContact) ==> r == CouldNotConnect
    ensures !Contains(msg, CantContact) || MatchAt(msg, 0, CantContact) ==> r == msg
  {
    if IndexOf(msg, CantContact) > 0 then CouldNotConnect else msg
  }

  /**
   * The reply of the server loop for the attempts `outs`, one per
   * configured server: the first success; or "Invalid credentials" at the
   * first terminal failure; or the last error, normalised, when every
   * server failed otherwise; or the configuration error for no servers.
   */
  function Failover(outs: seq<Attempt>): (r: Attempt)
    ensures |outs| == 0 ==> r == Attempt("", [], Some(NoServers))
    ensures r.err.Some? ==> r.token == ""
    ensures r.err.None? ==> r in outs
  {
    if |outs| == 0 then Attempt("", [], Some(NoServers))
    else
      var k := FirstDecisive(outs);
      if k < |outs| && outs[k].err.None? then outs[k]
      else if k < |outs| then Attempt("", outs[k].groups, Some(Normalize(InvalidCredentials)))
      else Attempt("", outs[|outs| - 1].groups, Some(Normalize(outs[|outs| - 1].err.value)))
  }

  /**
   * First success wins: when attempt `i` is the first success and every
   * earlier attempt failed without a terminal match, its result is the
   * reply, the earlier errors are discarded and no later server is tried.
   */
  lemma FirstSuccessWins(outs: seq<Attempt>, i: nat)
    requires i < |outs| && outs[i].err.None?
    requires forall j :: 0 <= j < i ==> outs[j].err.Some? && !Terminal(outs[j].err.value)
    ensures Failover(outs) == outs[i]
    ensures Tried(outs) == i + 1
  {
  }

  /**
   * A terminal credential failure at `i` ends the loop: the reply is exactly
   * "Invalid credentials" with no token, and no later server is tried.
   */
  lemma TerminalFailureStops(outs: seq<Attempt>, i: nat)
    requires i < |outs| && outs[i].err.Some? && Terminal(outs[i].err.value)
    requires forall j :: 0 <= j < i ==> !Decisive(outs[j])
    ensures Failover(outs) == Attempt("", outs[i].groups, Some(InvalidCredentials))
    ensures Tried(outs) == i + 1
  {
  }

  /**
   * When every server fails without a terminal match, every server is
   * tried and the reply is the last server's error, normalised.
   */
  lemma ExhaustedList(outs: seq<Attempt>)
    requires |outs| > 0
    requires forall j :: 0 <= j < |outs| ==> !Decisive(outs[j])
    ensures Failover(outs) == Attempt("", outs[|outs| - 1].groups, Some(Normalize(outs[|outs| - 1].err.value)))
    ensures Tried(outs) == |outs|
  {
  }

  /**
   * Once an attempt decides the outcome, the servers after it make no
   * difference: neither the reply nor the number of servers contacted
   * changes when more servers are configured behind them.
   */
  lemma {:induction false} LaterServersIrrelevant(outs: seq<Attempt>, rest: seq<Attempt>)
    requires FirstDecisive(outs) < |outs|
    ensures FirstDecisive(outs + rest) == FirstDecisive(outs)
    ensures Failover(outs + rest) == Failover(outs)
    ensures Tried(outs + rest) == Tried(outs)
  {
    var k := FirstDecisive(outs);
    assert (outs + rest)[k] == outs[k];
    assert forall j :: 0 <= j < k ==> (outs + rest)[j] == outs[j];
  }

  /**
   * The error texts of the bind adapter and the loop's two string tests:
   * a dial or bind error is terminal exactly when its underlying cause
   * contains "Invalid credentials", and is rewritten to the generic
   * connection message exactly when its cause contains "Can't contact LDAP
   * server" (the adapter's prefix keeps every such occurrence past index 0).
   * A bind that returns false yields the lower-case "invalid credentials",
   * which is neither terminal nor rewritten.
   */
  lemma AdapterErrorClassification(
    config: ADConfig, server: string, password: string,
    first: string, last: string, dir: Directory)
    ensures
      var d := dir.dial(ServerAddress(server, config.tlsPort), server, config.skipTLSVerify);
      var b := dir.bind(server, BindDN(first, last, config.baseDN), password);
      var e := AuthenticateAndGetUserGroupsFromAD(config, server, password, first, last, dir);
      && (d.DialFailed? ==>
            && e.Some?
            && (Terminal(e.value) <==> Contains(d.cause, InvalidCredentials))
            && Normalize(e.value) == if Contains(d.cause, CantContact) then CouldNotConnect else e.value)
      && (d.Dialed? && b.BindFailed? ==>
            && e.Some?
            && (Terminal(e.value) <==> Contains(b.cause, InvalidCredentials))
            && Normalize(e.value) == if Contains(b.cause, CantContact) then CouldNotConnect else e.value)
      && (d.Dialed? && b == Bound(false) ==>
            && e == Some(BindAdapter.RejectedMessage)
            && !Terminal(e.value)
            && Normalize(e.value) == e.value)
  {
    var d := dir.dial(ServerAddress(server, config.tlsPort), server, config.skipTLSVerify);
    var b := dir.bind(server, BindDN(first, last, config.baseDN), password);
    if d.DialFailed? {
      PrefixedErrorClassification(ContactErrorPrefix, d.cause);
    } else if b.BindFailed? {
      PrefixedErrorClassification(BindErrorPrefix, b.cause);
    }
    assert !MatchAt(BindAdapter.RejectedMessage, 0, InvalidCredentials) by {
      assert BindAdapter.RejectedMessage[0] != InvalidCredentials[0];
    }
  }

  /** The loop's string tests on `p + c` for an adapter prefix `p`. */
  lemma PrefixedErrorClassification(p: string, c: string)
    requires p == ContactErrorPrefix || p == BindErrorPrefix
    ensures Terminal(p + c) <==> Contains(c, InvalidCredentials)
    ensures Normalize(p + c) == if Contains(c, CantContact) then CouldNotConnect else p + c
  {
    assert 'I' !in p && 'C' !in p;
    IndexAfterPrefix(p, c, InvalidCredentials);
    IndexAfterPrefix(p, c, CantContact);
  }

  /**
   * The server loop of `authenticateAgainstAD`, with `connect` standing for
   * its call of `connectADServer` on each server. Each iteration overwrites
   * the token, groups and error with the current server's attempt; a
   * success returns at once, a terminal failure breaks out with
   * "Invalid credentials", and after the loop the error is normalised.
   * The ghost `tried` counts the servers contacted.
   */
  method AuthenticateAgainstAD(servers: seq<string>, connect: string -> Attempt)
    returns (sessionToken: string, groups: seq<string>, err: Option<string>, ghost tried: nat)
    ensures Attempt(sessionToken, groups, err) == Failover(Attempts(servers, connect))
    ensures tried == Tried(Attempts(servers, connect))
  {
    ghost var outs := Attempts(servers, connect);
    sessionToken, groups, err, tried := "", [], None, 0;
    if |servers| > 0 {
      var i := 0;
      while i < |servers|
        invariant 0 <= i <= |servers|
        invariant tried == i
        invariant i <= FirstDecisive(outs)
        invariant i > 0 ==> Attempt(sessionToken, groups, err) == outs[i - 1]
      {
        var a := connect(servers[i]);
        sessionToken, groups, err := a.token, a.groups, a.err;
        tried := tried + 1;
        if err.None? {
          FirstSuccessWins(outs, i);
          return;
        } else if Terminal(err.value) {
          TerminalFailureStops(outs, i);
          err := Some(InvalidCredentials);
          break;
        }
        i := i + 1;
      }
      if i == |servers| {
        ExhaustedList(outs);
      }
      if err.Some? && IndexOf(err.value, CantContact) > 0 {
        err := Some(CouldNotConnect);
      }
    } else {
      err := Some(NoServers);
    }
    sessionToken := "";
  }

  /**
   * `authenticate`: refuse at once, contacting no server, when the signing
   * key is empty or when the password or the user name is empty; otherwise
   * run the server loop and put "failed login for [<name>]: " in front of
   * any error it reports.
   */
  method Authenticate(
    config: ADConfig, user: User, password: string, orgID: string,
    key: string, svc: Services)
    returns (token: string, groups: seq<string>, err: Option<string>, ghost tried: nat)
    ensures |key| == 0 ==>
      token == "" && groups == [] && err == Some(KeyNotInitialized)
    ensures |key| > 0 && (|password| == 0 || |Sord(user.username)| == 0) ==>
      token == "" && groups == [] && err == Some(EmptyCredentials)
    ensures |key| > 0 && |password| > 0 && |Sord(user.username)| > 0 ==>
      var inner := Failover(Attempts(config.servers, Connector(config, user, password, orgID, key, svc)));
      && token == inner.token
      && groups == inner.groups
      && (inner.err.None? ==> err.None?)
      && (inner.err.Some? ==> err == Some(LoginFailurePrefix(Sord(user.username)) + inner.err.value))
    // the gate contacts no server; past it, the loop decides which servers are contacted
    ensures tried == if |key| > 0 && |password| > 0 && |Sord(user.username)| > 0
      then Tried(Attempts(config.servers, Connector(config, user, password, orgID, key, svc)))
      else 0
  {
    token, groups, err, tried := "", [], None, 0;
    if |key| > 0 {
      if |password| > 0 && |Sord(user.username)| > 0 {
        token, groups, err, tried :=
          AuthenticateAgainstAD(config.servers, Connector(config, user, password, orgID, key, svc));
        if err.Some? {
          err := Some(LoginFailurePrefix(Sord(user.username)) + err.value);
        }
      } else {
        err := Some(EmptyCredentials);
      }
    } else {
      err := Some(KeyNotInitialized);
    }
  }
}
