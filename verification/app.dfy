/**
 * The logic of the application entry point: turning the network statistics
 * into telemetry points, and the request middleware that prepares the
 * session and the view locals before any route handler runs.
 */
module App {
  import opened Wrappers
  import opened JsText
  import opened SessionState

  // ---------------------------------------------------------------------------
  // Telemetry points (logNetworkStats)
  // ---------------------------------------------------------------------------

  /** A value of the statistics response: a number, a string, or `NaN` after a failed `parseInt`. */
  datatype StatValue = Number(n: int) | Str(s: string) | NaN

  /** `{measurement, fields: {value}}`. */
  datatype Point = Point(measurement: string, value: StatValue)

  /** What one run of the statistics reporter does: nothing, or write these points. */
  datatype StatsReport = NotConfigured | Written(points: seq<Point>)

  const MeasurementPrefix: string := "lightning.network."
  const CapacityStat: string := "total_network_capacity"

  /** `parseInt(v)`: numbers keep their (integer) value, strings are parsed. */
  function ParseIntValue(v: StatValue): (r: StatValue)
    ensures v.Number? ==> r == v
    ensures r.Number? || r.NaN?
    ensures v.Str? ==> (r.NaN? <==> ParseInt(v.s).None?)
  {
    match v
    case Number(_) => v
    case Str(s) => (match ParseInt(s) case Some(n) => Number(n) case None => NaN)
    case NaN => NaN
  }

  /** A capacity reported as decimal text becomes the number it spells. */
  lemma CapacityTextParsed(n: nat)
    ensures ParseIntValue(Str(Decimal(n))) == Number(n)
  {
    ParseIntDecimal(n, "");
    assert Decimal(n) + "" == Decimal(n);
  }

  /**
   * One run of the statistics reporter. `influxConfigured` says whether a
   * telemetry client exists; `response` is what the statistics call answers,
   * as (name, value) pairs in the order `for ... in` visits them. Without a
   * client nothing is fetched or written; otherwise there is one point per
   * statistic, in order, named after it, and only the total capacity is
   * passed through `parseInt`.
   */
  method LogNetworkStats(influxConfigured: bool, response: seq<(string, StatValue)>)
    returns (report: StatsReport)
    ensures !influxConfigured <==> report == NotConfigured
    ensures report.Written? ==> |report.points| == |response|
    ensures report.Written? ==> forall i :: 0 <= i < |response| ==>
      report.points[i].measurement == MeasurementPrefix + response[i].0
    ensures report.Written? ==> forall i :: 0 <= i < |response| ==>
      report.points[i].value ==
        if response[i].0 == CapacityStat then ParseIntValue(response[i].1) else response[i].1
  {
    if !influxConfigured {
      return NotConfigured;
    }
    var vals: seq<Point> := [];
    for i := 0 to |response|
      invariant |vals| == i
      invariant forall j :: 0 <= j < i ==> vals[j].measurement == MeasurementPrefix + response[j].0
      invariant forall j :: 0 <= j < i ==>
        vals[j].value == if response[j].0 == CapacityStat then ParseIntValue(response[j].1) else response[j].1
    {
      var (x, valX) := response[i];
      if x == CapacityStat {
        valX := ParseIntValue(valX);
      }
      vals := vals + [Point(MeasurementPrefix + x, valX)];
    }
    report := Written(vals);
  }

  // ---------------------------------------------------------------------------
  // Request middleware: session defaults and one-shot handoffs
  // ---------------------------------------------------------------------------

  /** The RPC credentials from the configuration, when there are any. */
  datatype RpcCredentials = RpcCredentials(host: string, port: string, username: string)

  /** The three user settings the middleware defaults from cookies. */
  datatype Setting = CurrencyFormatType | UiTheme | HideHomepageBanner {
    function Key(): string {
      match this
      case CurrencyFormatType => "currencyFormatType"
      case UiTheme => "uiTheme"
      case HideHomepageBanner => "hideHomepageBanner"
    }

    function Default(): string {
      match this
      case HideHomepageBanner => "false"
      case _ => ""
    }
  }

  /** `key` is the session field of one of the settings. */
  predicate IsSettingKey(key: string) {
    key == CurrencyFormatType.Key() || key == UiTheme.Key() || key == HideHomepageBanner.Key()
  }

  /** The session (`req.session`) and the view locals (`res.locals`) of one request. */
  datatype RequestState = RequestState(session: map<string, Value>, locals: map<string, Value>)

  /** Whether the middleware handed the request on, or the connect-page check answered it. */
  datatype MiddlewareOutcome = Next | RedirectedToConnect

  datatype Handled = Handled(state: RequestState, outcome: MiddlewareOutcome)

  /** A cookie is truthy when it is present and not the empty string. */
  predicate CookieTruthy(cookies: map<string, string>, name: string) {
    name in cookies && cookies[name] != ""
  }

  /**
   * One settings block of the middleware: a falsy session value is replaced
   * by the setting's cookie when that is truthy, else by the default.
   */
  function WithSettingDefault(entries: map<string, Value>, cookies: map<string, string>, s: Setting)
    : map<string, Value>
  {
    if Truthy(entries, s.Key()) then entries
    else
      var name := SettingCookie(s.Key());
      entries[s.Key() := Text(if CookieTruthy(cookies, name) then cookies[name] else s.Default())]
  }

  /**
   * The three settings blocks in order. A truthy setting is left as it was;
   * a falsy one becomes its cookie value or its default; nothing else changes.
   */
  function WithSettingDefaults(entries: map<string, Value>, cookies: map<string, string>)
    : (r: map<string, Value>)
    ensures forall s: Setting :: s.Key() in r
    ensures forall s: Setting :: Truthy(entries, s.Key()) ==> r[s.Key()] == entries[s.Key()]
    ensures forall s: Setting :: !Truthy(entries, s.Key()) ==>
      r[s.Key()] == Text(if CookieTruthy(cookies, SettingCookie(s.Key()))
                         then cookies[SettingCookie(s.Key())] else s.Default())
    ensures forall k :: !IsSettingKey(k) ==> (k in r <==> k in entries)
    ensures forall k :: !IsSettingKey(k) && k in entries ==> r[k] == entries[k]
  {
    var e1 := WithSettingDefault(entries, cookies, CurrencyFormatType);
    var e2 := WithSettingDefault(e1, cookies, UiTheme);
    WithSettingDefault(e2, cookies, HideHomepageBanner)
  }

  /** The session fields the request start writes besides the settings. */
  predicate IsRequestKey(key: string) {
    key == "host" || key == "port" || key == "username" || key == "userErrors"
  }

  /**
   * Lines 194-210: RPC connection details are copied into the session when
   * configured, the error list is reset, and nothing else is written.
   */
  function BeginRequest(entries: map<string, Value>, rpc: Option<RpcCredentials>): (r: map<string, Value>)
    ensures "userErrors" in r && r["userErrors"] == ErrorList([])
    ensures rpc.Some? ==>
      && "host" in r && r["host"] == Text(rpc.value.host)
      && "port" in r && r["port"] == Text(rpc.value.port)
      && "username" in r && r["username"] == Text(rpc.value.username)
    ensures rpc.None? ==> forall k :: k != "userErrors" ==> (k in r <==> k in entries) && (k in entries ==> r[k] == entries[k])
    ensures forall k :: !IsRequestKey(k) ==> (k in r <==> k in entries) && (k in entries ==> r[k] == entries[k])
  {
    var withRpc :=
      match rpc
      case Some(c) => entries["host" := Text(c.host)]["port" := Text(c.port)]["username" := Text(c.username)]
      case None => entries;
    withRpc["userErrors" := ErrorList([])]
  }

  /**
   * The session once lines 194-253 have run: request fields and settings are
   * written, the error list is empty, and every other field is as it was.
   */
  function PrepareSession(entries: map<string, Value>, rpc: Option<RpcCredentials>, cookies: map<string, string>)
    : (r: map<string, Value>)
    ensures "userErrors" in r && r["userErrors"] == ErrorList([])
    ensures forall s: Setting :: s.Key() in r
    ensures forall s: Setting :: Truthy(entries, s.Key()) ==> r[s.Key()] == entries[s.Key()]
    ensures forall s: Setting :: !Truthy(entries, s.Key()) ==>
      r[s.Key()] == Text(if CookieTruthy(cookies, SettingCookie(s.Key()))
                         then cookies[SettingCookie(s.Key())] else s.Default())
    ensures forall k :: !IsSettingKey(k) && !IsRequestKey(k) ==>
      (k in r <==> k in entries) && (k in entries ==> r[k] == entries[k])
  {
    SettingKeysDistinct();
    WithSettingDefaults(BeginRequest(entries, rpc), cookies)
  }

  /** The setting keys are exactly the three settings' keys, and none is a request field. */
  lemma SettingKeysDistinct()
    ensures forall s: Setting :: IsSettingKey(s.Key()) && !IsRequestKey(s.Key())
    ensures forall k :: IsSettingKey(k) ==> !IsRequestKey(k)
  {
  }

  /** `res.locals[key] = req.session[key]`, where an undefined value leaves the local undefined. */
  function CopyProperty(locals: map<string, Value>, entries: map<string, Value>, key: string)
    : map<string, Value>
  {
    if key in entries then locals[key := entries[key]] else locals
  }

  /** The connect-page check is skipped for these two paths. */
  predicate SkipsConnectCheck(originalUrl: string) {
    originalUrl == "/" || originalUrl == "/connect"
  }

  /** `v.length` of a session value, with `undefined > 0` being false. */
  function Length(v: Value): nat {
    match v
    case Text(s) => |s|
    case ErrorList(es) => |es|
    case _ => 0
  }

  /** The session fields the handoffs may null, besides the error list. */
  predicate IsHandOffKey(key: string) {
    key == "userMessage" || key == "userMessageType" || key == "query"
  }

  /** The flash message moves to the locals, typed `"warning"` by default, and is cleared in the session. */
  function HandOffMessage(st: RequestState): RequestState {
    if Truthy(st.session, "userMessage") then
      var messageType :=
        if Truthy(st.session, "userMessageType") then st.session["userMessageType"] else Text("warning");
      RequestState(
        st.session["userMessage" := Null]["userMessageType" := Null],
        st.locals["userMessage" := st.session["userMessage"]]["userMessageType" := messageType])
    else st
  }

  /** A non-empty error list moves to the locals and is nulled in the session. */
  function HandOffErrors(st: RequestState): RequestState {
    if Truthy(st.session, "userErrors") && Length(st.session["userErrors"]) > 0 then
      RequestState(st.session["userErrors" := Null], st.locals["userErrors" := st.session["userErrors"]])
    else st
  }

  /** A pending query moves to the locals and is nulled in the session. */
  function HandOffQuery(st: RequestState): RequestState {
    if Truthy(st.session, "query") then
      RequestState(st.session["query" := Null], st.locals["query" := st.session["query"]])
    else st
  }

  /**
   * The whole middleware. `connectRedirect` is what the connect-page helper
   * answers when it is consulted (that helper is not part of this model).
   */
  function Middleware(entries: map<string, Value>, rpc: Option<RpcCredentials>,
                      cookies: map<string, string>, originalUrl: string, connectRedirect: bool)
    : (r: Handled)
    ensures r.outcome == RedirectedToConnect <==> !SkipsConnectCheck(originalUrl) && connectRedirect
    ensures forall k :: !IsSettingKey(k) && !IsRequestKey(k) && !IsHandOffKey(k) ==>
      (k in r.state.session <==> k in entries) && (k in entries ==> r.state.session[k] == entries[k])
  {
    var prepared := PrepareState(entries, rpc, cookies);
    HandOffsFrame(prepared);
    if !SkipsConnectCheck(originalUrl) && connectRedirect then
      Handled(prepared, RedirectedToConnect)
    else
      Handled(HandOffs(prepared), Next)
  }

  /** The handoffs write no session field other than the message fields, the error list and the query. */
  lemma HandOffsFrame(st: RequestState)
    ensures forall k :: k != "userErrors" && !IsHandOffKey(k) ==>
      (k in HandOffs(st).session <==> k in st.session)
      && (k in st.session ==> HandOffs(st).session[k] == st.session[k])
  {
    var s1 := HandOffMessage(st);
    var s2 := HandOffErrors(s1);
    assert forall k :: k != "userMessage" && k != "userMessageType" ==>
      (k in s1.session <==> k in st.session) && (k in st.session ==> s1.session[k] == st.session[k]);
    assert forall k :: k != "userErrors" ==>
      (k in s2.session <==> k in s1.session) && (k in s1.session ==> s2.session[k] == s1.session[k]);
  }

  /**
   * The locals once lines 208-216 have run on the session `begun` left by the
   * request start: `admin` is false and `host` and `port` follow that session.
   */
  function RequestLocals(begun: map<string, Value>): (r: map<string, Value>)
    ensures "admin" in r && r["admin"] == Flag(false)
    ensures ("host" in r <==> "host" in begun) && ("host" in begun ==> r["host"] == begun["host"])
    ensures ("port" in r <==> "port" in begun) && ("port" in begun ==> r["port"] == begun["port"])
    ensures forall k :: k != "admin" && k != "host" && k != "port" ==> k !in r
  {
    CopyProperty(CopyProperty(map["admin" := Flag(false)], begun, "host"), begun, "port")
  }

  /**
   * The locals once lines 208-255 have run, given the session `begun` after
   * the request start and the session `prepared` after the settings blocks:
   * `admin` is false, `host` and `port` follow `begun`, `currencyFormatType`
   * follows `prepared`, and no handoff field is set yet.
   */
  function PrepareLocals(begun: map<string, Value>, prepared: map<string, Value>): (r: map<string, Value>)
    requires "currencyFormatType" in prepared
    ensures "admin" in r && r["admin"] == Flag(false)
    ensures ("host" in r <==> "host" in begun) && ("host" in begun ==> r["host"] == begun["host"])
    ensures ("port" in r <==> "port" in begun) && ("port" in begun ==> r["port"] == begun["port"])
    ensures "currencyFormatType" in r && r["currencyFormatType"] == prepared["currencyFormatType"]
    ensures "userMessage" !in r && "userMessageType" !in r && "userErrors" !in r && "query" !in r
  {
    RequestLocals(begun)["currencyFormatType" := prepared["currencyFormatType"]]
  }

  /** The request state once lines 192-255 have run. */
  function PrepareState(entries: map<string, Value>, rpc: Option<RpcCredentials>, cookies: map<string, string>)
    : (r: RequestState)
    ensures r.session == PrepareSession(entries, rpc, cookies)
    ensures "currencyFormatType" in r.session
    ensures r.locals == PrepareLocals(BeginRequest(entries, rpc), r.session)
  {
    var prepared := PrepareSession(entries, rpc, cookies);
    assert CurrencyFormatType.Key() in prepared;
    RequestState(prepared, PrepareLocals(BeginRequest(entries, rpc), prepared))
  }

  /** Lines 264-288: the three handoffs in order. */
  function HandOffs(st: RequestState): RequestState {
    HandOffQuery(HandOffErrors(HandOffMessage(st)))
  }

  /** One settings block, run on the session in place. */
  method DefaultSetting(session: Session, cookies: map<string, string>, s: Setting)
    modifies session
    ensures session.entries == WithSettingDefault(old(session.entries), cookies, s)
  {
    if !Truthy(session.entries, s.Key()) {
      var cookieName := SettingCookie(s.Key());
      if CookieTruthy(cookies, cookieName) {
        session.entries := session.entries[s.Key() := Text(cookies[cookieName])];
      } else {
        session.entries := session.entries[s.Key() := Text(s.Default())];
      }
    }
  }

  /** Lines 194-210 on the session in place. */
  method StartRequest(session: Session, rpc: Option<RpcCredentials>)
    modifies session
    ensures session.entries == BeginRequest(old(session.entries), rpc)
  {
    if rpc.Some? {
      session.entries := session.entries["host" := Text(rpc.value.host)];
      session.entries := session.entries["port" := Text(rpc.value.port)];
      session.entries := session.entries["username" := Text(rpc.value.username)];
    }
    session.entries := session.entries["userErrors" := ErrorList([])];
  }

  /** Lines 264-276 on the session in place. */
  method TakeMessage(session: Session, locals: map<string, Value>) returns (locals': map<string, Value>)
    modifies session
    ensures RequestState(session.entries, locals') == HandOffMessage(RequestState(old(session.entries), locals))
  {
    locals' := locals;
    if Truthy(session.entries, "userMessage") {
      locals' := locals'["userMessage" := session.entries["userMessage"]];
      if Truthy(session.entries, "userMessageType") {
        locals' := locals'["userMessageType" := session.entries["userMessageType"]];
      } else {
        locals' := locals'["userMessageType" := Text("warning")];
      }
      session.entries := session.entries["userMessage" := Null];
      session.entries := session.entries["userMessageType" := Null];
    }
  }

  /** Lines 278-288 on the session in place. */
  method TakeErrorsAndQuery(session: Session, locals: map<string, Value>) returns (locals': map<string, Value>)
    modifies session
    ensures RequestState(session.entries, locals') ==
      HandOffQuery(HandOffErrors(RequestState(old(session.entries), locals)))
  {
    locals' := locals;
    if Truthy(session.entries, "userErrors") && Length(session.entries["userErrors"]) > 0 {
      locals' := locals'["userErrors" := session.entries["userErrors"]];
      session.entries := session.entries["userErrors" := Null];
    }
    if Truthy(session.entries, "query") {
      locals' := locals'["query" := session.entries["query"]];
      session.entries := session.entries["query" := Null];
    }
  }

  /** Lines 194-255 on the session in place: request fields, settings, and the first locals. */
  method PrepareRequest(session: Session, rpc: Option<RpcCredentials>, cookies: map<string, string>)
    returns (locals: map<string, Value>)
    modifies session
    ensures RequestState(session.entries, locals) == PrepareState(old(session.entries), rpc, cookies)
  {
    StartRequest(session, rpc);
    ghost var begun := session.entries;
    locals := map["admin" := Flag(false)];
    if "host" in session.entries {
      locals := locals["host" := session.entries["host"]];
    }
    if "port" in session.entries {
      locals := locals["port" := session.entries["port"]];
    }
    DefaultSetting(session, cookies, CurrencyFormatType);
    DefaultSetting(session, cookies, UiTheme);
    DefaultSetting(session, cookies, HideHomepageBanner);
    assert session.entries == WithSettingDefaults(begun, cookies);
    locals := locals["currencyFormatType" := session.entries["currencyFormatType"]];
  }

  /** The request middleware: updates the session in place and builds the view locals. */
  method HandleRequest(session: Session, rpc: Option<RpcCredentials>, cookies: map<string, string>,
                       originalUrl: string, connectRedirect: bool)
    returns (locals: map<string, Value>, outcome: MiddlewareOutcome)
    modifies session
    ensures var h := Middleware(old(session.entries), rpc, cookies, originalUrl, connectRedirect);
      session.entries == h.state.session && locals == h.state.locals && outcome == h.outcome
  {
    locals := PrepareRequest(session, rpc, cookies);
    if !SkipsConnectCheck(originalUrl) && connectRedirect {
      return locals, RedirectedToConnect;
    }
    locals := TakeMessage(session, locals);
    locals := TakeErrorsAndQuery(session, locals);
    outcome := Next;
  }

  // ---------------------------------------------------------------------------
  // Properties of the middleware
  // ---------------------------------------------------------------------------

  /** A settings block changes nothing when the setting already holds what the block would write. */
  lemma SettingDefaultIdle(entries: map<string, Value>, cookies: map<string, string>, s: Setting)
    requires s.Key() in entries
    requires Truthy(entries, s.Key())
             || entries[s.Key()] == Text(if CookieTruthy(cookies, SettingCookie(s.Key()))
                                         then cookies[SettingCookie(s.Key())] else s.Default())
    ensures WithSettingDefault(entries, cookies, s) == entries
  {
  }

  /** Running the settings blocks a second time, with the same cookies, changes nothing. */
  lemma SettingDefaultsIdempotent(entries: map<string, Value>, cookies: map<string, string>)
    ensures WithSettingDefaults(WithSettingDefaults(entries, cookies), cookies)
         == WithSettingDefaults(entries, cookies)
  {
    var once := WithSettingDefaults(entries, cookies);
    SettingDefaultIdle(once, cookies, CurrencyFormatType);
    SettingDefaultIdle(once, cookies, UiTheme);
    SettingDefaultIdle(once, cookies, HideHomepageBanner);
  }

  /** The banner setting is always truthy afterwards: its default is the non-empty string "false". */
  lemma BannerSettingAlwaysTruthy(entries: map<string, Value>, cookies: map<string, string>)
    ensures Truthy(WithSettingDefaults(entries, cookies), HideHomepageBanner.Key())
  {
  }

  /** The error handoff has nothing to do once the list has been reset. */
  lemma ResetErrorsStayPut(st: RequestState)
    requires "userErrors" in st.session && st.session["userErrors"] == ErrorList([])
    ensures HandOffs(st) == HandOffQuery(HandOffMessage(st))
  {
    assert HandOffMessage(st).session["userErrors"] == ErrorList([]);
  }

  /** The message handoff, seen through the query handoff that follows it. */
  lemma MessageThenQuery(st: RequestState)
    requires "userMessage" !in st.locals
    ensures var r := HandOffQuery(HandOffMessage(st));
      if Truthy(st.session, "userMessage") then
        && "userMessage" in r.locals && r.locals["userMessage"] == st.session["userMessage"]
        && "userMessageType" in r.locals && r.locals["userMessageType"] ==
             (if Truthy(st.session, "userMessageType") then st.session["userMessageType"] else Text("warning"))
        && "userMessage" in r.session && r.session["userMessage"] == Null
        && "userMessageType" in r.session && r.session["userMessageType"] == Null
      else
        && "userMessage" !in r.locals
        && ("userMessage" in r.session <==> "userMessage" in st.session)
        && ("userMessage" in st.session ==> r.session["userMessage"] == st.session["userMessage"])
  {
  }

  /** The query handoff, seen after the message handoff that precedes it. */
  lemma QueryAfterMessage(st: RequestState)
    requires "query" !in st.locals
    ensures var r := HandOffQuery(HandOffMessage(st));
      if Truthy(st.session, "query") then
        && "query" in r.locals && r.locals["query"] == st.session["query"]
        && "query" in r.session && r.session["query"] == Null
      else
        "query" !in r.locals
  {
  }

  /** The query handoff, seen through all three handoffs of a freshly prepared request. */
  lemma QueryHandOff(st: RequestState)
    requires "userErrors" in st.session && st.session["userErrors"] == ErrorList([])
    requires "query" !in st.locals
    ensures var r := HandOffs(st);
      if Truthy(st.session, "query") then
        && "query" in r.locals && r.locals["query"] == st.session["query"]
        && "query" in r.session && r.session["query"] == Null
      else
        "query" !in r.locals
  {
    ResetErrorsStayPut(st);
    QueryAfterMessage(st);
  }

  /** Neither handoff writes a setting. */
  lemma HandOffsKeepSetting(st: RequestState, s: Setting)
    requires s.Key() in st.session
    ensures var r := HandOffQuery(HandOffMessage(st));
      s.Key() in r.session && r.session[s.Key()] == st.session[s.Key()]
  {
  }

  /**
   * The flash message: when the request goes on, a truthy `userMessage` is
   * handed to the locals with its type (or "warning"), and both session fields
   * are nulled; a falsy one is neither shown nor touched.
   */
  lemma MessageHandedOver(entries: map<string, Value>, rpc: Option<RpcCredentials>,
                          cookies: map<string, string>, originalUrl: string, connectRedirect: bool)
    requires SkipsConnectCheck(originalUrl) || !connectRedirect
    ensures var st := Middleware(entries, rpc, cookies, originalUrl, connectRedirect).state;
      if Truthy(entries, "userMessage") then
        && "userMessage" in st.locals && st.locals["userMessage"] == entries["userMessage"]
        && "userMessageType" in st.locals && st.locals["userMessageType"] ==
             (if Truthy(entries, "userMessageType") then entries["userMessageType"] else Text("warning"))
        && "userMessage" in st.session && st.session["userMessage"] == Null
        && "userMessageType" in st.session && st.session["userMessageType"] == Null
      else
        && "userMessage" !in st.locals
        && ("userMessage" in st.session <==> "userMessage" in entries)
        && ("userMessage" in entries ==> st.session["userMessage"] == entries["userMessage"])
  {
    var prepared := PrepareState(entries, rpc, cookies);
    HandOffKeyKept(entries, rpc, cookies, "userMessage");
    HandOffKeyKept(entries, rpc, cookies, "userMessageType");
    MessageHandOff(prepared);
  }

  /** The message handoff, seen through all three handoffs of a freshly prepared request. */
  lemma MessageHandOff(st: RequestState)
    requires "userErrors" in st.session && st.session["userErrors"] == ErrorList([])
    requires "userMessage" !in st.locals
    ensures var r := HandOffs(st);
      if Truthy(st.session, "userMessage") then
        && "userMessage" in r.locals && r.locals["userMessage"] == st.session["userMessage"]
        && "userMessageType" in r.locals && r.locals["userMessageType"] ==
             (if Truthy(st.session, "userMessageType") then st.session["userMessageType"] else Text("warning"))
        && "userMessage" in r.session && r.session["userMessage"] == Null
        && "userMessageType" in r.session && r.session["userMessageType"] == Null
      else
        && "userMessage" !in r.locals
        && ("userMessage" in r.session <==> "userMessage" in st.session)
        && ("userMessage" in st.session ==> r.session["userMessage"] == st.session["userMessage"])
  {
    ResetErrorsStayPut(st);
    MessageThenQuery(st);
  }

  /** A handoff field comes through the request start and the settings unchanged. */
  lemma HandOffKeyKept(entries: map<string, Value>, rpc: Option<RpcCredentials>,
                       cookies: map<string, string>, key: string)
    requires IsHandOffKey(key)
    ensures var p := PrepareSession(entries, rpc, cookies);
      (key in p <==> key in entries) && (key in entries ==> p[key] == entries[key])
      && Truthy(p, key) == Truthy(entries, key)
  {
    PreparedKeepsKey(entries, rpc, cookies, key);
  }

  /** The request start and the settings leave a field that is neither a setting nor a request field alone. */
  lemma PreparedKeepsKey(entries: map<string, Value>, rpc: Option<RpcCredentials>,
                         cookies: map<string, string>, key: string)
    requires !IsSettingKey(key) && !IsRequestKey(key)
    ensures var p := PrepareSession(entries, rpc, cookies);
      (key in p <==> key in entries) && (key in entries ==> p[key] == entries[key])
      && Truthy(p, key) == Truthy(entries, key)
  {
  }

  /**
   * The handoffs leave the settings alone: after the middleware each setting
   * holds the truthy session value, else the truthy cookie, else the default.
   */
  lemma SettingAfterMiddleware(entries: map<string, Value>, rpc: Option<RpcCredentials>,
                               cookies: map<string, string>, originalUrl: string, connectRedirect: bool,
                               s: Setting)
    ensures var session := Middleware(entries, rpc, cookies, originalUrl, connectRedirect).state.session;
      && s.Key() in session
      && session[s.Key()] ==
           if Truthy(entries, s.Key()) then entries[s.Key()]
           else Text(if CookieTruthy(cookies, SettingCookie(s.Key()))
                     then cookies[SettingCookie(s.Key())] else s.Default())
  {
    var prepared := PrepareState(entries, rpc, cookies);
    ResetErrorsStayPut(prepared);
    HandOffsKeepSetting(prepared, s);
  }

  /** A flash message is shown at most once: the next request that goes on finds none. */
  lemma MessageShownOnce(entries: map<string, Value>, rpc: Option<RpcCredentials>,
                         cookies: map<string, string>, originalUrl: string, connectRedirect: bool,
                         rpc': Option<RpcCredentials>, cookies': map<string, string>,
                         originalUrl': string, connectRedirect': bool)
    requires SkipsConnectCheck(originalUrl) || !connectRedirect
    ensures var after := Middleware(entries, rpc, cookies, originalUrl, connectRedirect).state.session;
      "userMessage" !in Middleware(after, rpc', cookies', originalUrl', connectRedirect').state.locals
  {
    var after := Middleware(entries, rpc, cookies, originalUrl, connectRedirect).state.session;
    MessageHandedOver(entries, rpc, cookies, originalUrl, connectRedirect);
    assert !Truthy(after, "userMessage");
    var h := Middleware(after, rpc', cookies', originalUrl', connectRedirect');
    if h.outcome == Next {
      MessageHandedOver(after, rpc', cookies', originalUrl', connectRedirect');
    }
  }

  /**
   * When the connect-page check answers the request, the handoffs do not
   * run: the flash message and the query stay in the session for a later request.
   */
  lemma ConnectRedirectDefersHandoffs(entries: map<string, Value>, rpc: Option<RpcCredentials>,
                                      cookies: map<string, string>, originalUrl: string, connectRedirect: bool)
    ensures var h := Middleware(entries, rpc, cookies, originalUrl, connectRedirect);
      (h.outcome == RedirectedToConnect <==> !SkipsConnectCheck(originalUrl) && connectRedirect)
      && (h.outcome == RedirectedToConnect ==>
            && "userMessage" !in h.state.locals && "query" !in h.state.locals
            && ("userMessage" in entries ==>
                  "userMessage" in h.state.session && h.state.session["userMessage"] == entries["userMessage"])
            && ("query" in entries ==> "query" in h.state.session && h.state.session["query"] == entries["query"]))
  {
    PreparedKeepsKey(entries, rpc, cookies, "userMessage");
    PreparedKeepsKey(entries, rpc, cookies, "query");
  }

  /**
   * The error list is reset to `[]` before the handoff looks at it, so the
   * handoff never fires: the locals never receive `userErrors`, and the
   * session always leaves the middleware with an empty list.
   */
  lemma ErrorsNeverHandedOver(entries: map<string, Value>, rpc: Option<RpcCredentials>,
                              cookies: map<string, string>, originalUrl: string, connectRedirect: bool)
    ensures var st := Middleware(entries, rpc, cookies, originalUrl, connectRedirect).state;
      "userErrors" !in st.locals && "userErrors" in st.session && st.session["userErrors"] == ErrorList([])
  {
    var prepared := PrepareState(entries, rpc, cookies);
    ResetErrorsStayPut(prepared);
    HandOffsKeepErrors(prepared);
  }

  /** Neither the message nor the query handoff touches the error list. */
  lemma HandOffsKeepErrors(st: RequestState)
    requires "userErrors" in st.session && "userErrors" !in st.locals
    ensures var r := HandOffQuery(HandOffMessage(st));
      "userErrors" in r.session && r.session["userErrors"] == st.session["userErrors"]
      && "userErrors" !in r.locals
  {
  }

  /** A pending query is moved to the locals once, and the session keeps `null` in its place. */
  lemma QueryHandedOver(entries: map<string, Value>, rpc: Option<RpcCredentials>,
                        cookies: map<string, string>, originalUrl: string, connectRedirect: bool)
    requires SkipsConnectCheck(originalUrl) || !connectRedirect
    ensures var st := Middleware(entries, rpc, cookies, originalUrl, connectRedirect).state;
      if Truthy(entries, "query") then
        && "query" in st.locals && st.locals["query"] == entries["query"]
        && "query" in st.session && st.session["query"] == Null
      else
        "query" !in st.locals
  {
    var prepared := PrepareState(entries, rpc, cookies);
    HandOffKeyKept(entries, rpc, cookies, "query");
    QueryHandOff(prepared);
  }
}
