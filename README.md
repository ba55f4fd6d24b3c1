# cbn: a session-authenticating agent for a home router, in Dafny

The Go package `cbn` logs a client into the web interface of a home
router (a "CBN" device at `http://192.168.0.1`). The router speaks an
"ajax" protocol:

- parameters are posted form-encoded to `/xml/getter.xml` and `/xml/setter.xml`;
- every response may rotate a short-lived `sessionToken` cookie;
- a successful credential login yields a long-lived session id, the SID, which the agent can store in a file and resume later.

This project models the two core files:

- `agent.go` is the generic HTTP helper. `EncodeVals` encodes the form. `NewRequest` and `NewRequestV` build requests from the agent's base URL, user agent and active header map. `Do` sends them and exits the program on a transport error.
- `cbn.go` is the agent itself, a `CBNAgent` with `Token`, `SID` and `Header`. Its parts:
  - `updateCookies` and `updateSession` keep the Cookie header in step with the token and SID;
  - `postFunction`, `xmlGetter` and `xmlSetter` invoke router functions;
  - `Authenticate` either resumes a stored SID (`AuthenticateWithSID`) or performs the fixed five-request login handshake (`NewSID`).

The project has five parts:

- **Text** (`text.dfy`) holds `strings.Join`, `strings.Split` with a one-character separator, and `strings.Contains`, with round-trip lemmas.
- **Wire** (`wire.dfy`) is `agent.go`.
  - `EncodeVals` and `NewRequest` are methods with the source's loops.
  - Go's map iteration order is unspecified, so each loop picks its next key nondeterministically. `EncodeVals` also returns the order it used as a ghost output.
  - `Device` is the HTTP client at the other end: it logs each request and replies from a script.
  - `Expected`, `Conforms` and `Extends` describe the requests a step must issue. A form body conforms when it encodes the values under some key order.
- **Session** (`session.dfy`) is `cbn.go` as functions on a `State` value: the token, the SID, the contents of the two package-level header maps, which of them `Header` points at, the remaining device replies, and the session id file.
  - Each function returns the new state, the requests issued, and either a value or the reason the program exits (`Halt`).
  - `log.Fatalf` and the index panic of `cbn.go:172` are such exits.
- **Cbn** (`cbn.dfy`) is `cbn.go` as the program runs it. `CBNAgent` is a class whose methods update `token`, `sid`, `xmlHeaders`, `upgradeInsecureHeaders` and `header` in place and talk to the `Device`. `SidStore` is the session id file.
  - Each method of `CBNAgent` except `Do` is proved to end in exactly the state and result of the Session function it stands for, and to append requests conforming to that function's log. That function has the same name, except that `Exchange` stands for `Session.Send`.
  - `PostValues` is the merge loop of `postFunction`, proved to compute `Session.Params`.
  - `Do` and the `SidStore` methods stand for the HTTP client and the file system. `Do` is stated against `Next`, and the `SidStore` methods against the file's state and write log.
- **Properties** (`properties.dfy`) and **Scenarios** (`scenarios.dfy`) hold what the functions promise:
  - the five-request order of a fresh login, with the login-page POST under the upgrade headers and without a Cookie;
  - resume of a stored SID with a single GET;
  - the LoginFailed error and the SID parse;
  - persistence only when a file is configured;
  - four end-to-end runs against a scripted device.

Four behaviours of the code are worth knowing:

- Form keys are encoded in map iteration order, not sorted. `Wire.EncodingDependsOnOrder` shows that both orders are possible.
- A session id file that exists but cannot be read makes `Authenticate` return an error. It does not fall back to a fresh login.
- A transport error ends the program (`agent.go:48-50`). It is not an error returned to the caller.
- After a successful login the login page's reply is applied again (`cbn.go:174`). Its token replaces any newer one that getter 3 or the setter delivered. If that reply has no cookie, the Cookie header is not recomputed, so the SID is missing from Cookie until a later reply carries a sessionToken cookie. `Properties.SidAccepted` states both.

## Model

| member | source | states |
|---|---|---|
| `Text.Join` | agent.go:14 | strings.Join (here and for header values at agent.go:40): no parts give the empty string, one part gives itself; `Text.JoinAppend` and `Text.SplitJoin` state the rest |
| `Text.JoinAppend` | agent.go:14 | joining one more part appends the separator and that part |
| `Text.Split` | cbn.go:172 | strings.Split yields at least one piece, no piece contains the separator, and joining the pieces with it gives back the input |
| `Text.SplitJoin` | cbn.go:172 | splitting undoes joining when no part contains the separator |
| `Text.SplitAtFirst` | cbn.go:172 | the first separator after a separator-free prefix ends the first piece |
| `Text.ContainsIff` | cbn.go:167 | strings.Contains holds exactly when the substring occurs at some index |
| `Text.ContainsNeedsChar` | cbn.go:167 | a substring with a character the string lacks is not contained |
| `Wire.EncodeVals` | agent.go:11-18 | a non-empty map is encoded as `k=v1,v2` segments joined by `&` in some order of its keys, each key exactly once, with no trailing `&` |
| `Wire.EncodesSingleKey` | agent.go:11-18 | with one key the body is exactly `k=` plus the values joined by `,`, under every iteration order |
| `Wire.EncodeValsTestCases` | agent_test.go:8-20 | `{a:[b]}` encodes exactly as `a=b` and `{a:[b,c]}` exactly as `a=b,c` |
| `Wire.EncodingDependsOnOrder` | agent_test.go:11 | `{a:[b],c:[d]}` may encode as `a=b&c=d` and as `c=d&a=b` |
| `Wire.EncodingSegments` | agent.go:13-16 | without `&` in keys and values, splitting the body on `&` gives back one segment per key in iteration order |
| `Wire.WireHeaderEntries` | agent.go:38-41 | the request headers are `User-Agent` plus every key of the active map, each with its values joined by `;` |
| `Wire.NewRequest` | agent.go:33-43 | no request, meaning the program exits, exactly when the base URL plus the path does not parse; otherwise the method, the full URL, the body, and the headers above |
| `Wire.NewRequestV` | agent.go:29-31 | the same request as NewRequest with the EncodeVals encoding of the values as body |
| `Wire.CookieHeader` | agent.go:40 | Cookie values `sessionToken=T`, `SID=S` go on the wire as `sessionToken=T;SID=S` |
| `Wire.Device.Do` | agent.go:46-52 | the request is logged and the next scripted reply is consumed; an exhausted script is a transport failure |
| `Session.SetHeader` | cbn.go:82 | a write through `Header` lands in the active map only. The other map, the token, the SID, the script and the file are untouched, and writing Cookie keeps a well-formed state well-formed |
| `Session.CookieValues` | cbn.go:78-81 | `sessionToken=<token>`, followed by `SID=<sid>` exactly when the SID is set |
| `Session.UpdateCookies` | cbn.go:77-83 | Cookie in the active map becomes the cookie values of the current token and SID. Only that map changes |
| `Session.UpdateSession` | cbn.go:86-104 | the body is returned. No cookies means no change. A first cookie not named sessionToken ends the program. Otherwise its value becomes the token and the Cookie header is recomputed. The SID and the inactive map are unchanged, whichever map is active |
| `Session.Send` | agent.go:33-52 | an unparsable URL exits with nothing sent. Otherwise one request with the active map's headers goes out, and the next reply is the response or a transport exit |
| `Session.Params` | cbn.go:188-196 | the keys are token, fun and the extra map's keys. Extra values win; token and fun keep theirs unless overridden |
| `Session.Post` | cbn.go:197-198 | one form POST to the path under the active headers, sent exactly when the URL parses and whenever the call goes on. The result is the body of the next scripted reply, and the new state is UpdateSession's on that reply: its token and the recomputed Cookie. SID, file and the choice of `Header` stay, and a well-formed state stays well-formed |
| `Session.PostFunction` | cbn.go:187-199 | at most one request, exactly when the URL parses: a POST of the current token, `fun` and the extra parameters under the active headers |
| `Session.XmlGetter` | cbn.go:203-205 | that request, posted to `/xml/getter.xml`, sent whenever the call goes on |
| `Session.XmlSetter` | cbn.go:200-202 | that request, posted to `/xml/setter.xml`, sent whenever the call goes on |
| `Session.Refresh` | cbn.go:141-142 | one GET of the base URL with an empty body, sent exactly when that URL parses and whenever the call goes on. The new state is UpdateSession's on the reply: its token and the recomputed Cookie. SID, file and the choice of `Header` stay |
| `Session.LoginPage` | cbn.go:149-152 | one empty POST of the login page under the upgrade map. Afterwards `Header` is back on `xmlHeaders` and the upgrade map is unwritten. The result is the next scripted reply itself, and the new state is UpdateSession's on it under `xmlHeaders`: its token and the recomputed Cookie |
| `Session.Setup` | cbn.go:141-155 | at most four requests, exactly four when it goes on. SID and file stay |
| `Session.ParseSid` | cbn.go:172 | a parsed SID contains no `=` |
| `Session.WriteSid` | cbn.go:175-181 | the write is logged, and the file holds the SID unless the write fails. Nothing else changes |
| `Session.CompleteLogin` | cbn.go:166-183 | checking the login reply issues no request. A rejection changes nothing. The file is written at most once, with the final SID, only on success and with a file configured |
| `Session.Login` | cbn.go:160-183 | the only request is the login setter's: the current token, `fun=15` and the credentials. Well-formedness and the at-most-once write hold |
| `Session.NewSID` | cbn.go:135-184 | at most five requests. `Header` is back on `xmlHeaders` whenever the program goes on, and the file is written at most once, with the final SID |
| `Session.ReadSid` | cbn.go:118-121 | a file that does not exist cannot be read. One that exists fails exactly when it is unreadable, and otherwise yields its text |
| `Session.AuthenticateWithSID` | cbn.go:117-132 | at most five requests, well-formedness kept, and the file written at most once, with the final SID |
| `Session.Authenticate` | cbn.go:107-114 | at most five requests. `Header` is back on `xmlHeaders` whenever the program goes on, and the file is written at most once, with the SID the agent ends with, only on success |
| `Cbn.SidStore.ReadFile` | cbn.go:118-121 | the read succeeds exactly when the name is set and the file is present, and then yields the stored text |
| `Cbn.SidStore.WriteFile` | cbn.go:177 | the write is logged; the file holds the data unless the write fails |
| `Cbn.CBNAgent.constructor` | cbn.go:59-75 | no token or SID, `Header` is `xmlHeaders`, the given user config when exactly one is given, otherwise the default `.cbn_sid` |
| `Cbn.CBNAgent.SetHeader` | cbn.go:82 | the same state change as Session.SetHeader |
| `Cbn.CBNAgent.UpdateCookies` | cbn.go:77-83 | Cookie is set to CookieValues of the current token and SID in the active map |
| `Cbn.CBNAgent.UpdateSession` | cbn.go:86-104 | the same state and result as Session.UpdateSession |
| `Cbn.CBNAgent.Do` | agent.go:46-52 | a missing request exits; otherwise exactly one request is sent and the reply is the response or a transport exit |
| `Cbn.CBNAgent.Exchange` | agent.go:33-52 | the state, result and sent request of Session.Send |
| `Cbn.PostValues` | cbn.go:188-196 | the merge loop yields exactly Params: `token` and `fun`, overridden by every entry of the optional map |
| `Cbn.CBNAgent.PostFunction` | cbn.go:187-199 | the parameters of PostValues, then the state, result and sent request of Session.PostFunction |
| `Cbn.CBNAgent.Post` | cbn.go:197-198 | the state, result and sent request of Session.Post |
| `Cbn.CBNAgent.XmlGetter` | cbn.go:203-205 | Session.XmlGetter |
| `Cbn.CBNAgent.XmlSetter` | cbn.go:200-202 | Session.XmlSetter |
| `Cbn.CBNAgent.Refresh` | cbn.go:141-142 | Session.Refresh |
| `Cbn.CBNAgent.LoginPage` | cbn.go:149-152 | Session.LoginPage, with the header switch and switch back |
| `Cbn.CBNAgent.Setup` | cbn.go:141-155 | Session.Setup: the four setup requests in order |
| `Cbn.CBNAgent.Login` | cbn.go:160-183 | Session.Login: the login setter, then CompleteLogin on its reply |
| `Cbn.CBNAgent.CompleteLogin` | cbn.go:166-183 | the state and result of Session.CompleteLogin: the reply check, the SID, the response applied again, and persistence |
| `Cbn.CBNAgent.NewSID` | cbn.go:135-184 | the state, result and requests of Session.NewSID |
| `Cbn.CBNAgent.AuthenticateWithSID` | cbn.go:117-132 | the state, result and requests of Session.AuthenticateWithSID |
| `Cbn.CBNAgent.Authenticate` | cbn.go:107-114 | the state, result and requests of Session.Authenticate |
| `Properties.UpdateCookiesOnWire` | cbn.go:77-83 | after updateCookies the request carries `Cookie: sessionToken=T;SID=S`, or `sessionToken=T` while there is no SID |
| `Properties.GetterSetterDifferInPath` | cbn.go:200-205 | getter and setter calls agree in state, result and requests except for the URL path |
| `Properties.LoginPageHeader` | cbn.go:25-33 | the login page request has no Cookie header, the Referer `http://192.168.0.1/`, and `Upgrade-Insecure-Requests: 1` |
| `Properties.XmlRequestHeader` | cbn.go:13-22 | a request sent from a well-formed state carries no `Upgrade-Insecure-Requests` |
| `Properties.LoginOutcomes` | cbn.go:160-183 | the login ends in success, a LoginFailed error, or an exit |
| `Properties.LoginParams` | cbn.go:161-164 | the login parameters are exactly token, `fun=15`, `Username` and `Password` with the configured values |
| `Properties.SetupStages` | cbn.go:141-155 | a setup that goes on is its four steps in order, each going on with one request |
| `Properties.SetupRequests` | cbn.go:141-155 | four requests in order: an empty GET of the base URL; getter `fun=24` with the token the GET left; the empty login page POST under the upgrade headers; getter `fun=3` with the token the login page left. `Header` is on `xmlHeaders` for both getters |
| `Properties.SetupMarks` | cbn.go:141-155 | of the four setup requests only the login page carries the upgrade marker, and it has no Cookie |
| `Properties.NewSIDStages` | cbn.go:135-184 | a fresh login that goes on is the setup followed by the login's one request |
| `Properties.NewSIDRequests` | cbn.go:135-165 | a fresh login that goes on issues exactly five requests: the four of SetupRequests, then the setter with the token the setup left, `fun=15` and the credentials. Only the third, the login page, carries the upgrade marker, and it has no Cookie |
| `Properties.MissingCredentials` | cbn.go:136-138 | the missing-credentials error happens exactly when a credential is empty, with no request and no state change |
| `Properties.ParseSidField` | cbn.go:172 | the SID of `a;key=v` is `v` when the parts have no `;` or `=` |
| `Properties.ParseSidNoField` | cbn.go:172 | a reply without `;` makes the index panic |
| `Properties.ParseSidNoEquals` | cbn.go:172 | a second field without `=` makes the index panic |
| `Properties.LoginRejected` | cbn.go:166-171 | a reply without "successful" is returned as LoginFailed with that body, and the state is unchanged |
| `Properties.SidAccepted` | cbn.go:172-183 | a reply with "successful" and a SID sets the SID and applies the login page response again. The token and the Cookie of the active map come from that response when it has a cookie; otherwise neither changes. The other map, the script and `Header` stay. The SID is written exactly when a file is configured, and a failed write still succeeds |
| `Properties.LoginAccepted` | cbn.go:166-183 | the same for the reply `successful;SID=v`, whose SID is `v` |
| `Properties.LoginPanics` | cbn.go:172 | "successful" without `;` ends the program |
| `Properties.AuthenticateRoutes` | cbn.go:107-125 | no file name or no file, or a stored id of at most 4 characters, means a fresh login. An unreadable file is an error with no request |
| `Properties.ResumeStoredSid` | cbn.go:126-131 | the stored id becomes the SID and Cookie is `SID=<id>` alone. Exactly one GET of the base URL is sent when that URL parses, and none otherwise. Success holds exactly when the reply is delivered with acceptable cookies, whatever the body |
| `Scenarios.FreshSetup` | cbn.go:141-155 | against the example script the token after setup is the one from the login page reply |
| `Scenarios.FreshLogin` | cbn.go:107-160 | with no usable stored id, Authenticate is the setup followed by the login on the login page's response |
| `Scenarios.FreshSetter` | cbn.go:161-164 | against the example script the login setter sends one request and receives the scripted reply, with no cookie |
| `Scenarios.FreshLoginSucceeds` | cbn.go:135-184 | with alice/secret and the reply `successful;SID=v`, authentication succeeds. The SID is `v`, it is persisted once, and five requests go out |
| `Scenarios.FreshLoginRejected` | cbn.go:166-171 | a reply without "successful" fails with that text, nothing is persisted, and five requests go out |
| `Scenarios.RejectionText` | cbn.go:167 | "already logged in elsewhere" does not contain "successful" |
| `Scenarios.ResumeValidSid` | cbn.go:117-132 | a stored id longer than 4 characters is resumed with one GET carrying `SID=<id>` and no handshake |
| `Scenarios.ResumeCorruptSid` | cbn.go:122-125 | a stored `xy` is ignored, and the full fresh login runs and persists the new SID |

## Left out

- URL parsing by `net/url` is not modelled. `Env.urlParses` stands for its verdict on `BaseUrl + url`.
- `http.Client` and the network are not modelled. The device is a script of replies, and a transport error ends the program as in the source.
- Set-Cookie parsing is not modelled. A response is its cookie list, in order, and its body.
- The response body is taken whole. The read error that `cbn.go:88-91` only logs is not modelled.
- Logging (`log.Printf`, `log.Println`) is not modelled. The messages have no effect on state.
- `http.Header.Set` canonicalises header names. Every name the agent uses is already in canonical form, so the header map is taken as written.
- The header maps are package-level variables shared by all agents of a process. Each agent here owns its copy, so one agent's Cookie writes are not visible to another.
- The file mode 0600 of the session id file is not modelled. Neither are file errors beyond "missing", "unreadable" and "write fails".
- Go's `len` counts bytes while the model counts characters. They agree on the ASCII ids the router issues.
- `Session.StatNotExist`, `Cbn.SidStore.Stat` and `Cbn.CBNAgent.AgentOf` are definitions, not properties. The first two stand in for `os.Stat` and `os.IsNotExist` (cbn.go:108-109): an empty name or a missing file reads as not existing, while an unreadable file reads as existing, as `os.Stat` reports it, so it takes the resume path and fails there at the read. `AgentOf` is the embedded `Agent` read through the map `Header` points at (cbn.go:63-69).
- `Wire.EncodeVals`: requires a non-empty map. On an empty map the source's `r[:len(r)-1]` panics, and postFunction always sends at least `token` and `fun`.
- `Cbn.CBNAgent.NewSID`: the Go function is one body. Here it calls the steps `Setup` (cbn.go:141-155) and `Login` (cbn.go:160-183), and `Login` calls `CompleteLogin` (cbn.go:166-183). They run the same statements in the same order.
- `Cbn.CBNAgent.PostFunction`: the merge loop of cbn.go:192-196 is the separate method `Cbn.PostValues`, which touches no object state.
- The scenarios take the tokens and the SID as parameters rather than the literal `tok1`, `tok2` and `998877`. They hold for those values too.
- No retries are modelled. The source has none; its comments only suggest them.
- `tools/login.go`, the command-line client, is not part of this model.
