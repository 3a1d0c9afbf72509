# Directory login and session tokens, modelled in Dafny

This project models the decision logic of `ldap.go`: logging a user in
against an ordered list of Active Directory servers, minting a signed
session token (a JWT) for the user's authorization scope, and the string
handling with which a presented token is validated. The network, the
user and permission stores, the JWT library, base64 and JSON decoding and
the clock are inputs of the model: function-typed parameters and plain
values.

Modules, one per component of the file:

- `GoStrings` (`go_strings.dfy`): the parts of Go's `strings` and `fmt`
  that the code relies on (`Index`, `Contains`, `Split` on ".", `Repeat`,
  `%d`), with their laws.
- `BindAdapter` (`bind_adapter.dfy`): one bind attempt against one server,
  `authenticateAndGetUserGroupsFromAD`, and the bind DN.
- `Minting` (`minting.dfy`): `generateJWT`.
- `Login` (`login.dfy`): `connectADServer`, the failover loop of
  `authenticateAgainstAD` (a method with a loop, specified by the function
  `Failover` over the per-server attempts) and the gate in `authenticate`
  (a method). Both methods return a ghost count of the servers contacted,
  so "no server is contacted" and "no later server is tried" are stated
  directly.
- `Validation` (`validation.dfy`): `checkJWT` as a method, with the payload
  padding, the slice of the embedded scope and the classification of
  validation errors as functions.
- `Wrappers` (`wrappers.dfy`): `Option` and `Result`.

The full validation round trip of an embedded scope follows from three
members together: `CompactSegments` (a three-segment token splits into its
segments), `CheckJWT` (an accepted three-segment token has its scope
replaced by `unmarshal` of the slice of its decoded payload) and
`ExtractRoundTrip` (that slice is exactly the JSON text that followed
`"Permissions":`).

Behaviour of the code worth knowing:

- A bind that returns false yields the lower-case "invalid credentials"
  (ldap.go:133). The loop's test looks for "Invalid credentials" with a
  capital I (ldap.go:51), so such a rejection is not terminal: the loop
  goes on to the next server (`AdapterErrorClassification`).
- On "improperly formatted JWT", on a base64 error and on a scope-parsing
  error, `checkJWT` returns the claims the library produced, not nil.
- A nil token from the library yields "could not process JWT"; the error
  texts keep the code's capitalisation ("Non-token passed", "Token is
  either expired or not active yet", "Could not handle token").
- The connection-failure rewrite applies only when "Can't contact LDAP
  server" occurs at an index greater than 0 (ldap.go:58); an error that
  starts with it is kept as is (`Normalize`).
- `checkJWT` never tests that the signing key is set: it hands the key to
  the JWT library as it is (ldap.go:188-190), and only `authenticate`
  refuses an empty key (ldap.go:29). Validation with an empty key fails
  only if the library refuses it; `CheckJWT` likewise passes `key` to
  `parse` unchecked and promises nothing about an empty key.
- The connection dialled for each attempt is never closed: ldap.go has no
  `Close` and no `defer`, so every attempt, on every exit path of
  ldap.go:95-142, leaves its connection open.

## Model

| member | source | states |
|---|---|---|
| `Login.Authenticate` | ldap.go:28-43 | An empty signing key gives "signing key not initialized for authentication" and an empty password or user name gives "Both a username and password cannot be empty", each with no token, no groups and no server contacted; otherwise the token, groups and servers contacted are the server loop's, and its error gets the prefix "failed login for [<name>]: " |
| `Login.AuthenticateAgainstAD` | ldap.go:45-67 | The loop's token, groups and error are `Failover` of the servers' attempts in configured order, and the servers contacted are exactly those up to and including the first success or terminal failure (`Tried`) |
| `Login.Failover` | ldap.go:46-66 | No servers gives "no AD servers found in the listener config" with no token; a reply with an error has an empty token; a successful reply is one of the servers' attempts |
| `Login.FirstDecisive` | ldap.go:47-55 | The position of the first attempt that succeeded or failed terminally: every attempt before it is neither, and it is one (or the list is exhausted) |
| `Login.FirstSuccessWins` | ldap.go:47-50 | When attempt i is the first success after only non-terminal failures, the reply is attempt i, earlier errors are discarded and exactly i + 1 servers are contacted |
| `Login.TerminalFailureStops` | ldap.go:51-53 | An error containing "Invalid credentials" after only non-terminal failures ends the loop at that server with exactly "Invalid credentials" and no token; no later server is contacted |
| `Login.ExhaustedList` | ldap.go:47-66 | When no attempt succeeds or fails terminally, every server is contacted and the reply is the last server's error, normalised, with no token |
| `Login.LaterServersIrrelevant` | ldap.go:47-55 | Once an attempt decides the outcome, appending more servers changes neither the reply nor the number of servers contacted |
| `Login.Normalize` | ldap.go:57-61 | An error containing "Can't contact LDAP server" somewhere past index 0 becomes "could not connect to LDAP server"; any other error, including one that starts with that text, is kept |
| `Login.AdapterErrorClassification` | ldap.go:51-58 | For the adapter's dial and bind errors, terminality holds exactly when the underlying cause contains "Invalid credentials" and the rewrite happens exactly when the cause contains "Can't contact LDAP server"; the lower-case rejection of a false bind is neither terminal nor rewritten |
| `Login.ConnectADServer` | ldap.go:69-83 | A failed bind is the attempt's error and the minter is not consulted; after a successful bind the attempt is the minter's token or error; groups are always empty and a failed attempt carries no token |
| `BindAdapter.AuthenticateAndGetUserGroupsFromAD` | ldap.go:86-143 | The attempt succeeds exactly when the TLS dial succeeds and the bind of the user's DN returns true; a dial error gives "error while contacting AD - <cause>", a bind error "error while contacting AD, likely invalid credentials - <cause>", a false bind "invalid credentials" |
| `BindAdapter.BindDN` | ldap.go:107 | The DN is "CN=", the first name, one space, the last name, a comma and the base DN, in that order and nothing else |
| `BindAdapter.ServerAddress` | ldap.go:97 | The dial address is the server name, a colon and the port in decimal |
| `Minting.GenerateJWT` | ldap.go:145-183 | A store error is passed through; a missing user gives "could not find user in database <name>" and a missing scope "could not find permissions for user <name>"; the scope comes from the per-organization lookup exactly when the organization id is not empty, else from the leaf-organization lookup; a token is only ever the signature of claims that expire 3600 seconds after now, are issued by "PDE" and carry the resolved scope |
| `Validation.CheckJWT` | ldap.go:185-242 | Library validation errors are classified and others passed through, with nil claims; a nil token, an empty raw token and a claim-type or validity mismatch give their messages with nil claims; an accepted token that is not three dot-separated segments gives "improperly formatted JWT"; otherwise the padded payload is decoded, sliced and its scope re-parsed into the claims, any error being returned |
| `Validation.ClassifyValidation` | ldap.go:231-239 | "Non-token passed" exactly when the malformed bit is set; "Token is either expired or not active yet" exactly when it is not but the expired or not-valid-yet bit is; "Could not handle token" exactly when none of the three is set |
| `Validation.Padded` | ldap.go:200-204 | The padded payload is the original followed by 0 to 3 `=` characters, its length is a multiple of 4, and an original whose length is already a multiple of 4 is unchanged |
| `Validation.PermissionsSlice` | ldap.go:209-212 | The slice is what lies between the first `"Permissions":` and the payload's last character; without the key it starts at index 13 |
| `Validation.ExtractRoundTrip` | ldap.go:209-213 | For a payload `pre + "Permissions": + json + }` with no earlier occurrence of the key, the slice is in bounds and is exactly `json` |
| `Validation.CompactSegments` | ldap.go:198-200 | Three dot-free segments joined by dots split back into exactly those segments, so the middle field is the payload |
| `GoStrings.IndexOf` | ldap.go:58 | The result is the first index where the pattern occurs, or -1 when it occurs nowhere |
| `GoStrings.IndexAfterPrefix` | ldap.go:51 | Behind a prefix without the pattern's first character, the pattern's first occurrence is its first occurrence in the rest, shifted, and containment is unchanged |
| `GoStrings.Split` | ldap.go:198 | Splitting always yields at least one field |
| `GoStrings.SplitCount` | ldap.go:198-199 | Splitting yields one more field than there are dots, so three fields means exactly two dots |
| `GoStrings.SplitFields` | ldap.go:198 | No field contains a dot and joining the fields with dots gives the string back |
| `GoStrings.SplitJoin` | ldap.go:198 | Splitting the dot-join of dot-free fields gives the fields back |
| `GoStrings.Repeat` | ldap.go:203 | The result has the requested length and consists of the given character only |
| `GoStrings.FormatInt` | ldap.go:97 | A non-negative port is written as digits that read back as the port, with no leading zero except for "0" itself; a negative one as a minus sign followed by such digits of its magnitude |
| `GoStrings.DecimalRoundTrip` | ldap.go:97 | Reading back the decimal digits of a number gives the number |

## Left out

- The TLS dial and the LDAP bind (ldap.go:95-107) are the two functions of a `Directory` value; TLS and the LDAP protocol are not modelled. The source never closes the connection it dials (ldap.go:95-142); connections are not modelled.
- The group-membership search (ldap.go:110-131) is commented out in the source; the model returns no groups, as the code does.
- The user and permission stores (`Ms.GetUserByUsername`, `Ms.GetPermissionByUserOrgID`, `Ms.GetPermissionOfLeafOrgByUserID`) are functions of a `Store` value; the `Permission` record is an opaque type.
- HMAC-SHA-256 signing and the JWT library's parse-and-verify step (`SignedString`, `ParseWithClaims`) are parameters; whether a token is expired, malformed or badly signed is decided by the `parse` parameter, and the model classifies the bitmask it reports. The bit values are those of jwt-go's `ValidationError`, which is not part of this model.
- JSON marshalling of the claim set and `tokenPermission.UnmarshalJSON` are not part of this model: the scope parser is a parameter, and the mint-then-validate round trip is stated from the slicing step on (`ExtractRoundTrip`), assuming the marshalled payload ends in the `Permissions` field.
- Base64 decoding is a parameter. The source decodes the base64url payload with the standard alphabet (`StdEncoding`); which payloads that decoder rejects is not modelled.
- `time.Now()` is the parameter `now`, in Unix seconds; the signing key, a global in the source, is the parameter `key`.
- The standard claims other than `exp` and `iss` are always zero in minted tokens and are not modelled; 64-bit overflow of `exp` is not modelled.
- `sord` is not part of this model; `Sord` takes it to return the referenced string of a non-nil `*string` and "" for nil.
- Authenticate: the source passes "failed login for [%s]: " followed by the inner error text as a `fmt` format string, so a `%` in that text would be read as a formatting verb; the model appends the text literally.
- AuthenticateAgainstAD: takes the per-server attempt as a function (`Connector` builds it from `ConnectADServer` with the configuration, user, password, organization and services fixed) instead of those arguments. Because the attempt is a function of the server name and one `now` serves every attempt, a server listed twice gets the same outcome both times, whereas the source dials afresh per entry (ldap.go:47-48) and reads the clock per mint (ldap.go:165); a transient failure followed by a success on a repeated entry is not expressible. `FirstSuccessWins`, `TerminalFailureStops` and `ExhaustedList` quantify over arbitrary sequences of attempts and do not rest on this.
- CheckJWT: requires that the slice of the decoded payload is in bounds (`SliceCannotPanic`); where the source would panic on `trimBody[start : len-1]`, the model has no behaviour.
- CheckJWT: when the scope parser fails, the model returns the library's claims unchanged; any partial update `UnmarshalJSON` makes before failing is not modelled, nor is a nil `Permissions` field.
- Strings: each character of a model `string` stands for one byte of the Go string, so `len`, `strings.Index` and the slice bounds of ldap.go:29-30, 58, 201 and 211-212 count bytes in both; decoding and the other foreign calls are parameters, so under this reading every index agrees with the source; Unicode characters as such are not modelled.
- GenerateJWT: the source's type assertion `permissions.(*dal.Permission)` (ldap.go:161) panics for any other implementation of the permission interface; `Permission` is an opaque type here and every `Found` scope is signed.
- Concurrency: there is none in this file.
