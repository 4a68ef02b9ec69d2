/**
  The Treasure Data analytics provider: a write key, a database and a table
  fixed at construction, a "session started" flag, the user and session ids,
  and a passive user profile. Every operation is a pure function from the
  provider to a `Reply`: the provider afterwards, the requests it hands to the
  HTTP transport (in order), and the value the operation returns.

  `FDateTime::Now()` is a `Clock` parameter: `text` is what `ToString()`
  gives, `unix` what `ToUnixTimestamp()` gives.
 */
module TreasureData {

  import opened Wrappers
  import opened Http

  /** The source's `int`, the type of the age setter's argument. */
  newtype int32 = x: int | -0x8000_0000 <= x < 0x8000_0000

  datatype Config = Config(apiKey: string, database: string, table: string)

  datatype Provider = Provider(
    config: Config,
    sessionStarted: bool,
    userId: string,
    sessionId: string,
    age: int32,
    location: string,
    gender: string,
    buildInfo: string)

  /** A caller-supplied event attribute. */
  datatype Attribute = Attribute(name: string, value: string)

  datatype Clock = Clock(text: string, unix: int64)

  /** What an operation leaves behind; `value` is `()` for the source's `void` operations. */
  datatype Reply<T> = Reply(next: Provider, sent: seq<Request>, value: T)

  /** The host's configuration accessor: unbound, or a lookup of (key, required). */
  datatype ConfigDelegate = Unbound | Bound(execute: (string, bool) -> string)

  const ApiKeySetting := "TDApiKey"
  const DatabaseSetting := "TDDatabase"
  const TableSetting := "TDTable"

  const StartTimeKey := "start_time"
  const EndTimeKey := "end_time"
  const PlayerTimeKey := "player_time"
  const ActionKey := "action"

  /** Where session start and end notices go. */
  function SessionsPath(c: Config): string
  {
    c.database + "/sessions"
  }

  /** Where events go. */
  function EventsPath(c: Config): string
  {
    c.database + "/" + c.table
  }

  /** The provider is as it was and nothing was sent. */
  predicate Quiet<T>(p: Provider, r: Reply<T>)
  {
    r.next == p && r.sent == []
  }

  /** `req` is the session notice `{key: unix}` a provider with configuration `c` sends. */
  predicate IsSessionNotice(req: Request, c: Config, key: string, unix: int64)
  {
    && Authorized(req, c.apiKey)
    && req.path == SessionsPath(c)
    && req.body == [Field(key, JNumber(unix))]
  }

  /**
    The constructor: its initialiser list sets only the configuration triple.
    The other fields are declared in the class header, which is not part of
    this model; the model assumes the header clears the session flag and
    sets the age to 0, and the strings start empty as a default FString does.
   */
  function New(key: string, database: string, table: string): (p: Provider)
    ensures p.config.apiKey == key && p.config.database == database && p.config.table == table
    ensures !p.sessionStarted
    ensures p.userId == "" && p.sessionId == ""
  {
    Provider(Config(key, database, table), false, "", "", 0, "", "", "")
  }

  /** The module's factory: reads the three settings through the delegate, or gives no provider. */
  function CreateAnalyticsProvider(getConfigValue: ConfigDelegate): (r: Option<Provider>)
    ensures r.None? <==> getConfigValue.Unbound?
    ensures r.Some? ==>
      && r.value.config.apiKey == getConfigValue.execute(ApiKeySetting, true)
      && r.value.config.database == getConfigValue.execute(DatabaseSetting, true)
      && r.value.config.table == getConfigValue.execute(TableSetting, true)
      && !r.value.sessionStarted
  {
    match getConfigValue
    case Unbound => None
    case Bound(execute) =>
      var key := execute(ApiKeySetting, true);
      var database := execute(DatabaseSetting, true);
      var table := execute(TableSetting, true);
      Some(New(key, database, table))
  }

  /**
    Opens a session when none is open and the write key is non-empty, then,
    if a session is open (new or old), sends a start notice. Attributes are
    accepted and ignored.
   */
  function StartSession(p: Provider, attributes: seq<Attribute>, now: Clock): (r: Reply<bool>)
    ensures r.value == r.next.sessionStarted
    ensures r.value <==> p.sessionStarted || p.config.apiKey != ""
    ensures !r.value ==> Quiet(p, r)
    ensures r.value ==> |r.sent| == 1 && IsSessionNotice(r.sent[0], p.config, StartTimeKey, now.unix)
    ensures p.sessionStarted ==> r.next == p
    ensures !p.sessionStarted && r.value ==>
      && r.next == p.(sessionStarted := true, sessionId := p.userId + "-" + now.text)
      && GetSessionID(r.next) == GetUserID(p) + "-" + now.text
  {
    var q :=
      if !p.sessionStarted && |p.config.apiKey| > 0
      then p.(sessionStarted := true, sessionId := p.userId + "-" + now.text)
      else p;
    if q.sessionStarted then
      Reply(q, [Post(q.config.apiKey, SessionsPath(q.config), [Field(StartTimeKey, JNumber(now.unix))])], true)
    else
      Reply(q, [], false)
  }

  /** Closes an open session, sending an end notice; does nothing when no session is open. */
  function EndSession(p: Provider, now: Clock): (r: Reply<()>)
    ensures !p.sessionStarted ==> Quiet(p, r)
    ensures p.sessionStarted ==>
      && |r.sent| == 1
      && IsSessionNotice(r.sent[0], p.config, EndTimeKey, now.unix)
      && r.next == p.(sessionStarted := false)
  {
    if p.sessionStarted then
      var notice := Post(p.config.apiKey, SessionsPath(p.config), [Field(EndTimeKey, JNumber(now.unix))]);
      Reply(p.(sessionStarted := false), [notice], ())
    else
      Reply(p, [], ())
  }

  /** The destructor: ends a session still open; what it sends is all that is left of the provider. */
  function Destructor(p: Provider, now: Clock): (sent: seq<Request>)
    ensures |sent| <= 1
    ensures sent == [] <==> !p.sessionStarted
    ensures sent != [] ==> IsSessionNotice(sent[0], p.config, EndTimeKey, now.unix)
  {
    if p.sessionStarted then EndSession(p, now).sent else []
  }

  /** Switches user only between sessions; during a session the call is ignored. */
  function SetUserID(p: Provider, userId: string): (r: Reply<()>)
    ensures r.sent == []
    ensures p.sessionStarted ==> r.next == p
    ensures !p.sessionStarted ==> r.next == p.(userId := userId)
    ensures GetUserID(r.next) == if p.sessionStarted then GetUserID(p) else userId
  {
    if !p.sessionStarted then Reply(p.(userId := userId), [], ()) else Reply(p, [], ())
  }

  function GetUserID(p: Provider): string
  {
    p.userId
  }

  function GetSessionID(p: Provider): string
  {
    p.sessionId
  }

  /** Reports success and stores nothing: the session id stays the one StartSession computed. */
  function SetSessionID(p: Provider, sessionId: string): (r: Reply<bool>)
    ensures r.value
    ensures Quiet(p, r)
    ensures GetSessionID(r.next) == GetSessionID(p)
  {
    Reply(p, [], true)
  }

  /**
    Sends one event `{player_time, action}` to the events table, but only
    with an open session, a non-empty name and no attributes. With attributes
    the source only walks them to log Category, Label and Value, and sends
    nothing. The provider itself never changes.
   */
  function RecordEvent(p: Provider, eventName: string, attributes: seq<Attribute>, now: Clock): (r: Reply<()>)
    ensures r.next == p
    ensures |r.sent| <= 1
    ensures r.sent != [] <==> p.sessionStarted && eventName != "" && attributes == []
    ensures r.sent != [] ==>
      && Authorized(r.sent[0], p.config.apiKey)
      && r.sent[0].path == EventsPath(p.config)
      && r.sent[0].body == [Field(PlayerTimeKey, JNumber(now.unix)), Field(ActionKey, JString(eventName))]
  {
    if !p.sessionStarted then Reply(p, [], ())
    else if eventName == "" then Reply(p, [], ())
    else if |attributes| == 0 then
      var body := [Field(PlayerTimeKey, JNumber(now.unix)), Field(ActionKey, JString(eventName))];
      Reply(p, [Post(p.config.apiKey, EventsPath(p.config), body)], ())
    else
      Reply(p, [], ())
  }

  /** The four profile setters: unconditional stores, nothing sent. */
  function SetAge(p: Provider, age: int32): (r: Reply<()>)
    ensures r.sent == [] && r.next == p.(age := age)
  {
    Reply(p.(age := age), [], ())
  }

  function SetLocation(p: Provider, location: string): (r: Reply<()>)
    ensures r.sent == [] && r.next == p.(location := location)
  {
    Reply(p.(location := location), [], ())
  }

  function SetGender(p: Provider, gender: string): (r: Reply<()>)
    ensures r.sent == [] && r.next == p.(gender := gender)
  {
    Reply(p.(gender := gender), [], ())
  }

  function SetBuildInfo(p: Provider, buildInfo: string): (r: Reply<()>)
    ensures r.sent == [] && r.next == p.(buildInfo := buildInfo)
  {
    Reply(p.(buildInfo := buildInfo), [], ())
  }

}
