# lightning-rpc-explorer: route and middleware logic in Dafny

This project models the decision logic of a Lightning Network explorer web
application: what its route handlers show for a snapshot of the network
graph, and how its request middleware and telemetry reporter update the
session, the view locals and the list of telemetry points. The network
snapshot (`fullNetworkDescription`: nodes and channels by key, plus
precomputed orderings) is taken as an input record; how it is built and
cached is not modelled.

Modules:

- `Wrappers`: the `Option` type.
- `JsText`: the JavaScript string operations the handlers rely on. These are
  `indexOf`, `substring` (with its clamping and argument swap),
  `toLowerCase`, `trim` (the ECMAScript white-space and line-terminator set)
  and `parseInt` (the leading decimal digits).
- `Network`: the snapshot records (node, address, node info, channel edge,
  orderings).
- `SessionState`: session values (`null`, strings, booleans, error lists) and
  JavaScript truthiness. The session is a `Session` object whose
  `entries` map the handlers rewrite; an absent key is `undefined`.
- `App` (`app.js`):
  - the `logNetworkStats` point construction;
  - the request middleware: RPC fields, settings defaulted from
    `user-setting-*` cookies, the connect-page check, and the one-shot
    handoff of the flash message, the error list and the query to the
    view locals.
- `Router` (`routes/baseActionsRouter.js`):
  - `/nodes` and `/channels`: sort-string split, ordering dispatch and
    `slice` paging;
  - `/node/:nodePubKey`: incident channels, tcp URI and QR strings;
  - `/channel/:channelId`;
  - the `/node-status` QR strings;
  - `/search`: the emptiness check, normalisation, redirect precedence and
    per-criterion match collection;
  - `/changeSetting`.

The loops of the source (`for ... in` over the statistics, `forEach` over
channels and nodes, the indexed scan for a tcp address) are methods with
loop invariants. The channel, URI and search loops are proved equal to
recursive specification functions, and lemmas about those functions state
what the source promises. The statistics loop is instead specified point by
point: its postcondition says what each written point holds.
The middleware is a method on the `Session` object. Its postcondition ties
the new session and locals to the pure function `App.Middleware`, and the
handoff and settings properties are lemmas about that function.

Lines 210 and 278-282 of `app.js` interact in a way the model makes
explicit. The error list is reset to `[]` before the handoff checks whether
it is non-empty, so the error handoff never fires within one middleware
run. `App.ErrorsNeverHandedOver` proves this.

`/changeSetting` without a `value` parameter stores `undefined` in the
session but writes the cookie text `"undefined"`, because the cookie value
goes through `String`. That text is truthy, so the next request's settings
block restores the setting as the string `"undefined"`.
`Router.ValuelessSwitchStoresUndefined` proves this.

## Model

| member | source | states |
|---|---|---|
| JsText.IndexOf | routes/baseActionsRouter.js:180-181 | `indexOf` is -1 when the pattern does not occur, else the first position where it occurs |
| JsText.ContainsEmpty | routes/baseActionsRouter.js:281-294 | `s.indexOf("") > -1` holds for every string |
| JsText.ToLower | routes/baseActionsRouter.js:258 | lowercasing keeps the length, maps each character, and leaves no ASCII capital |
| JsText.Trim | routes/baseActionsRouter.js:258 | `trim` returns the part of the string between the leading and the trailing white space; it is empty exactly when the string is all white space, and otherwise starts and ends with a non-white-space character |
| JsText.TrimIsTrimOf | routes/baseActionsRouter.js:258 | `trim`'s result sits in the string right after the leading white space, with only white space after it |
| JsText.LowerTrimShape | routes/baseActionsRouter.js:258 | `toLowerCase().trim()` is no longer than its input, has no ASCII capital, is empty exactly when the input is all white space, and otherwise neither starts nor ends with white space |
| JsText.ParseInt | routes/baseActionsRouter.js:164 | `parseInt` is NaN exactly when the text is empty or does not start with a digit |
| JsText.ParseIntDecimal | routes/baseActionsRouter.js:168 | the decimal text of a number, followed by anything that does not start with a digit, parses back to that number |
| App.ParseIntValue | app.js:65-67 | a number passes through `parseInt` unchanged; text becomes NaN exactly when it has no leading digits; the result is always a number or NaN |
| App.CapacityTextParsed | app.js:65-67 | a capacity given as decimal text is turned into the number it spells |
| App.LogNetworkStats | app.js:58-77 | without a telemetry client nothing is written; otherwise there is one point per statistic, in iteration order, measured as `lightning.network.<key>`, and only `total_network_capacity` goes through `parseInt` |
| App.BeginRequest | app.js:194-210 | the configured RPC host, port and username are copied into the session, the error list becomes `[]`, and no other field changes |
| App.WithSettingDefaults | app.js:219-253 | each setting key is present afterwards; a truthy setting is kept; a falsy one becomes its truthy `user-setting-` cookie, else its default; other fields are unchanged |
| App.PrepareSession | app.js:194-253 | the session after the request start and the settings blocks: the error list is `[]`, the settings are defaulted as above, and fields that are neither settings nor request fields are unchanged |
| App.RequestLocals | app.js:208-216 | `admin` is false, `host` and `port` are copied exactly when the session has them, and nothing else is set |
| App.PrepareLocals | app.js:208-255 | `admin` is false, `host` and `port` follow the session after the request start, `currencyFormatType` follows the session after the settings blocks, and no message, message type, error list or query is set yet |
| App.PrepareState | app.js:194-255 | the request state before the connect check: the session is the prepared one, it holds `currencyFormatType`, and the locals are those `PrepareLocals` gives for it |
| App.Middleware | app.js:190-288 | the connect page answers exactly when the path is neither `/` nor `/connect` and the check asks for it; every session field other than the settings, the request fields (`host`, `port`, `username`, `userErrors`) and the handoff fields (`userMessage`, `userMessageType`, `query`) is left as it was |
| App.HandOffsFrame | app.js:264-288 | the three handoffs change no session field other than the message fields, the error list and the query |
| App.DefaultSetting | app.js:220-229 | one settings block, run on the session in place, leaves the session as `WithSettingDefault` describes |
| App.StartRequest | app.js:194-210 | the request start, run in place, leaves the session as `BeginRequest` describes |
| App.TakeMessage | app.js:264-276 | the flash-message block, run in place, has the effect of `HandOffMessage` on session and locals |
| App.TakeErrorsAndQuery | app.js:278-288 | the error and query blocks, run in place, have the effect of `HandOffErrors` then `HandOffQuery` |
| App.PrepareRequest | app.js:194-255 | the middleware up to the connect check leaves the session as `PrepareSession` and the locals as `PrepareLocals` describe |
| App.HandleRequest | app.js:190-288 | the whole middleware, run on the session object, produces exactly the session, locals and outcome of `Middleware` |
| App.SettingDefaultIdle | app.js:219-253 | a settings block changes nothing when the setting already holds what the block would write |
| App.SettingDefaultsIdempotent | app.js:219-253 | running the settings blocks twice with the same cookies gives the same session as running them once |
| App.BannerSettingAlwaysTruthy | app.js:244-253 | `hideHomepageBanner` is truthy after the settings blocks, since its default is the non-empty `"false"` |
| App.ResetErrorsStayPut | app.js:278-282 | once the error list is `[]`, the error handoff changes nothing |
| App.MessageThenQuery | app.js:264-288 | on any request state whose locals hold no message yet, the message handoff moves a truthy message and its type (default `"warning"`) to the locals and nulls both session fields; a falsy message is neither shown nor changed |
| App.MessageHandOff | app.js:264-288 | on a request state whose error list is `[]` and whose locals hold no message, all three handoffs together move a truthy message and its type to the locals and null both session fields; a falsy message is neither shown nor changed |
| App.QueryHandOff | app.js:264-288 | on such a state, all three handoffs together move a truthy query to the locals and null it in the session; a falsy one is not shown |
| App.QueryAfterMessage | app.js:264-288 | on any request state whose locals hold no query yet, a truthy query is moved to the locals and nulled in the session; a falsy one is not shown |
| App.HandOffsKeepSetting | app.js:264-288 | the handoffs leave every setting field unchanged |
| App.PreparedKeepsKey | app.js:194-253 | a field that is neither a setting nor a request field keeps its presence, value and truthiness through the request start and the settings blocks |
| App.MessageHandedOver | app.js:264-276 | when the middleware hands the request on, a truthy `userMessage` reaches the locals with its type or `"warning"`, and both session fields become null; a falsy one is neither shown nor touched |
| App.SettingAfterMiddleware | app.js:219-288 | after the whole middleware each setting holds the truthy session value, else the truthy cookie, else the default |
| App.MessageShownOnce | app.js:264-276 | when the middleware hands a request on, the next middleware run on the session it left puts no flash message in the locals |
| App.ConnectRedirectDefersHandoffs | app.js:258-262 | the connect page answers exactly when the path is neither `/` nor `/connect` and the check asks for it; the handoffs then do not run, and the message and query stay in the session |
| App.ErrorsNeverHandedOver | app.js:210-282 | the error list never reaches the locals, and the session always leaves the middleware holding `[]` |
| App.QueryHandedOver | app.js:284-288 | when the request goes on, a truthy `session.query` is moved to the locals and nulled; a falsy one is not shown |
| Router.SortParam | routes/baseActionsRouter.js:171-173 | a given sort parameter is used as it is; an absent or empty one gives `"last_update-desc"` |
| Router.CountParam | routes/baseActionsRouter.js:163-169 | an absent or empty parameter gives the default; a given one gives the number `parseInt` reads from it |
| Router.SplitSort | routes/baseActionsRouter.js:180-181 | with a dash, the sort string is property + "-" + direction with a dash-free property; without one, the property is empty and the direction is the whole string |
| Router.DashIndex | routes/baseActionsRouter.js:180-181 | `indexOf("-")` is -1 exactly when there is no dash, and otherwise points at the first dash |
| Router.SplitSortJoin | routes/baseActionsRouter.js:180-181 | splitting `property-direction` for a dash-free property gives back both parts |
| Router.NodeOrdering | routes/baseActionsRouter.js:186-197 | `last_update`, `num_channels` and `channel_capacity` select the last-update, channel-count and total-capacity orderings; any other property falls back to last-update order |
| Router.ChannelOrdering | routes/baseActionsRouter.js:233-241 | `capacity` selects the capacity ordering; every other property, `last_update` included, selects last-update order |
| Router.Page | routes/baseActionsRouter.js:199 | `slice(offset, offset + limit)` has at most `limit` elements, `min(limit, len - offset)` of them when offset is inside the list, is a contiguous run starting at `offset`, and is empty when `offset >= len` |
| Router.NodesPage | routes/baseActionsRouter.js:158-203 | defaults 20, 0 and `"last_update-desc"`; given parameters are parsed or used as they are; the page is exactly `slice(offset, offset + limit)` of the ordering `NodeOrdering` chooses for the sort property, so at most `limit` nodes starting at `offset` |
| Router.ChannelsPage | routes/baseActionsRouter.js:205-247 | the same defaults; the page is exactly `slice(offset, offset + limit)` of the ordering `ChannelOrdering` chooses for the sort property |
| Router.NodeSortDirectionIgnored | routes/baseActionsRouter.js:180-197 | two sort strings that differ only in direction give the same node page |
| Router.ChannelSortDirectionIgnored | routes/baseActionsRouter.js:227-241 | two sort strings that differ only in direction give the same channel page |
| Router.DashlessSortFallsBack | routes/baseActionsRouter.js:180-197 | a sort string without a dash has an empty property, so the nodes come in last-update order even for `num_channels` |
| Router.IncidentChannelsExact | routes/baseActionsRouter.js:26-31 | the node's channel list picks, in strictly increasing positions, exactly the channels having the key at either end |
| Router.IncidentChannelsDistinct | routes/baseActionsRouter.js:26-31 | when the ordering lists each channel once, so does the node's channel list |
| Router.CollectNodeChannels | routes/baseActionsRouter.js:26-31 | the `forEach` push loop builds exactly that channel list |
| Router.FirstTcpFrom | routes/baseActionsRouter.js:37-45 | the scan finds the first `tcp` address at or after the start, or -1 when there is none |
| Router.NodeUri | routes/baseActionsRouter.js:36-46 | the URI is `pubkey@addr` of the first `tcp` address, and is unset exactly when there is no `tcp` address |
| Router.FindNodeUri | routes/baseActionsRouter.js:37-45 | the indexed loop with `break` computes that URI |
| Router.QrStrings | routes/baseActionsRouter.js:33-41 | the QR list starts with the key and has a second entry exactly when there is a URI |
| Router.NodePage | routes/baseActionsRouter.js:18-59 | for a known key the view holds the node, its incident channels, its URI and the QR list; an unknown key produces no page |
| Router.Lookup | routes/baseActionsRouter.js:69-70 | a node lookup finds the node exactly when its key is in the map |
| Router.ChannelPage | routes/baseActionsRouter.js:61-74 | a known channel id gives the channel and, for each end, the node the node map holds for that key, present exactly when the key is known; an unknown id produces no page |
| Router.StatusQrStrings | routes/baseActionsRouter.js:92-95 | the status QR list is the identity key, then the first URI when there is one |
| Router.NormalizeQuery | routes/baseActionsRouter.js:258 | the normalised query is the lowercased raw query with the white space before and after it cut off; it is no longer than the raw one, has no ASCII capital, is empty exactly when the raw query is all white space, and otherwise neither starts nor ends with white space |
| Router.QueryOutcome | routes/baseActionsRouter.js:262-298 | a normalised query redirects to the node exactly when it is a node key, to the channel exactly when it is a channel id but no node key, and otherwise lists the matches of the last-update ordering; the outcome carries the query |
| Router.SearchOutcomeOf | routes/baseActionsRouter.js:249-275 | the outcome is the missing-query redirect exactly when the parameter is absent or empty; otherwise it is the outcome for the normalised query |
| Router.SearchRedirectPrecedence | routes/baseActionsRouter.js:249-275 | a missing or empty query redirects home; an exact node key redirects to the node before an exact channel id redirects to the channel; any other query falls through to the matches of the last-update ordering |
| Router.BlankQuerySearchesEverything | routes/baseActionsRouter.js:250-298 | a query of blanks passes the emptiness check, is trimmed to `""`, and lists each node once per criterion, as `indexOf("")` always matches |
| Router.EmptyQueryMatchesAll | routes/baseActionsRouter.js:281-297 | the empty query meets all three field criteria and every address |
| Router.EmptyQueryMatchesAllAddresses | routes/baseActionsRouter.js:293-297 | the empty query is contained in every address |
| Router.SearchMatchMultiplicity | routes/baseActionsRouter.js:280-298 | a node occurs in the results as often as it occurs in the ordering times the number of criteria it meets |
| Router.SearchMatchesMembership | routes/baseActionsRouter.js:280-298 | a node is in the results exactly when it is in the ordering and meets at least one criterion |
| Router.PushFieldMatches | routes/baseActionsRouter.js:281-291 | the three field checks append the node once per field that contains the query |
| Router.PushAddressMatches | routes/baseActionsRouter.js:293-297 | the address loop appends the node once per address that contains the query |
| Router.PushMatches | routes/baseActionsRouter.js:280-297 | one node's step appends it once per criterion it meets |
| Router.CollectMatches | routes/baseActionsRouter.js:280-298 | the walk over the last-update ordering builds exactly the specified result list |
| Router.SearchQuery | routes/baseActionsRouter.js:262-298 | for a normalised query: redirect to the node on an exact node key, else to the channel on an exact channel id, else list the matches of the last-update ordering |
| Router.Search | routes/baseActionsRouter.js:249-302 | the handler returns the specified outcome and writes the flash message only when the query is missing |
| Router.MissingQueryMessageShownOnce | routes/baseActionsRouter.js:250-255 | the message a missing query leaves is shown by the next page the middleware hands on, as a warning unless a type is pending, and is then cleared |
| Router.ApplySetting | routes/baseActionsRouter.js:149-150 | without a name the session is unchanged; with one, the field holds the value, or is absent (`undefined`) when there is no value, and no other field changes |
| Router.CookieText | routes/baseActionsRouter.js:152 | the cookie text is the value, or `"undefined"` when there is none |
| Router.ChangeSetting | routes/baseActionsRouter.js:148-156 | with a name, the session field is set as `ApplySetting` says and the `user-setting-<name>` cookie carries the value, or the text `"undefined"` when there is none; without a name nothing is written; the redirect is always to the referer |
| Router.ChangedSettingKept | routes/baseActionsRouter.js:150 | a setting switched to a non-empty value survives the next request's defaults |
| Router.ValuelessSwitchStoresUndefined | routes/baseActionsRouter.js:148-156 | switching a setting with no value leaves the cookie `"undefined"`, which the next middleware run copies into the session as that text |
| Router.SettingCookieRestoresSetting | routes/baseActionsRouter.js:152 | the cookie `/changeSetting` writes is the one the middleware reads back when the session has lost the setting |

## Left out

- Building and caching the network snapshot: `app/rpcApi.js` is not part of this model, and the snapshot is an input.
- The gRPC/LND connection is left out because it is file I/O and network access: macaroon and certificate reading, credentials, `GetInfo`, and the per-request `bitcoinCore` client.
- Startup timers and the exchange-rate and git-version lookups are left out as I/O.
- The InfluxDB `writePoints` call is not modelled. `App.LogNetworkStats` returns the points it would write.
- QR-image generation (`utils.buildQrCodeUrls`) is not modelled. Only the strings the images are made from are.
- `/node-status`: the promise orchestration and the `getInfo`/`listPeers` calls are left out as remote calls, and with them the error push into `session.userErrors` (line 140). Only the QR-string choice is modelled.
- `/connectToPeer` is left out, since it is a passthrough to a remote call. Its missing-parameter checks only set a message and fall through to that call.
- Express plumbing is left out: `res.render`, `res.redirect`, the view engine and the error handlers. Redirects and pages are returned as values.
- `res.locals.session` aliases the session object; locals and session are kept as two separate maps, so that alias is not modelled.
- `config`, `coinConfig` and `fullNetworkDescription` in the locals are left out, as is the connect-page helper `utils.redirectToConnectPageIfNeeded`. Its answer is a parameter (`connectRedirect`), and the helper is assumed to write nothing to the session or the locals. `App.Middleware`'s session frame on the redirect path, `App.ConnectRedirectDefersHandoffs` and `App.ErrorsNeverHandedOver` hold only under that assumption.
- Cookies and query parameters are strings. Repeated query parameters (which Express turns into arrays) and non-string cookie values are not modelled.
- JsText.ToLower: lowercases ASCII letters only; JavaScript's full Unicode case mapping is not modelled.
- JsText.ParseInt: reads leading decimal digits only; leading white space, a sign, a hexadecimal prefix and the loss of precision for very long numbers are not modelled.
- App.ParseIntValue: statistics values are integers or text; a fractional number, which `parseInt` would truncate, is not modelled.
- Router.NodesPage: requires that a given `limit` or `offset` starts with a digit, so the negative and NaN arguments of `parseInt` and `slice` are not modelled.
- Router.ChannelsPage: has the same restriction on `limit` and `offset` as `Router.NodesPage`.
- Router.NodePage: an unknown key is modelled as no page (the handler throws on `nodeInfo.node`). Keys that hit JavaScript object-prototype properties are not modelled, and the address list is never `null` here.
- Router.ChannelPage: an unknown channel id is modelled as no page, in the same way as `Router.NodePage`. Channel ids and end-node keys that hit JavaScript object-prototype properties are not modelled.
- Router.QueryOutcome: the node and channel lookups are map membership, so a query naming an object-prototype property (such as `constructor`), which the handler would redirect to `/node/constructor`, is modelled as a list of matches instead.
- Router.SearchMatches: the address list of every node is assumed non-null; the handler's `addresses.forEach` would throw on a `null` list, which is not modelled.
