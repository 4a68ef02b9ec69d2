# Treasure Data analytics provider — a Dafny model

This project models the session logic of `FAnalyticsProviderTreasureData`, the
Unreal Engine analytics provider that forwards session start/end notices and
named events to the Treasure Data ingestion API. The provider is a small state
machine: a write key, database and table fixed at construction, a "session
started" flag, the user id, the session id derived at session start, and four
passive profile fields (age, location, gender, build info).

Each operation is a pure function from a `Provider` value to a `Reply`: the
provider afterwards, the HTTP requests it hands to the transport, in order, and
the value the C++ method returns. A request is a record of verb, headers, URL
path (the part after the API base URL) and a JSON body kept as the ordered
key/value list given to the JSON writer. `FDateTime::Now()` is a `Clock`
parameter carrying both its `ToString()` text and its `ToUnixTimestamp()` value.

Files:

- `wrappers.dfy` — `Option`, the factory's "no provider" result.
- `http.dfy` — requests, headers, JSON fields, the `int64` timestamp type, and the
  `Authorized` predicate (a JSON POST carrying the write key).
- `treasure_data.dfy` — the provider: factory, constructor, destructor, session
  operations, user/session id accessors, `RecordEvent`, profile setters.
- `sessions.dfy` — sequences of calls on one provider (`Run`) and the properties
  that hold over all of them.

Points where the code behaves differently from what one might expect, all modelled as the code does them:

- The factory reads the settings `TDApiKey`, `TDDatabase` and `TDTable`.
- The write-key header is `X-TD-Write-Key`.
- With an empty write key and no open session, `StartSession` sends nothing
  and returns false; it does not send a start notice. Consequently a provider
  built with an empty key never sends anything at all (`Sessions.NoKeyNoTraffic`).
- `RecordEvent` with a non-empty attribute list sends nothing; the attributes
  only feed a log line. The model keeps this as written.

## Model

| member | source | states |
|---|---|---|
| TreasureData.CreateAnalyticsProvider | Source/TreasureData/Private/TreasureData.cpp:21-36 | no provider exactly when the delegate is unbound; otherwise the key, database and table are the delegate's values for `TDApiKey`, `TDDatabase`, `TDTable`, and no session is open |
| TreasureData.New | Source/TreasureData/Private/TreasureData.cpp:39-50 | the constructor stores the configuration triple and starts with no session and empty user and session ids |
| TreasureData.Destructor | Source/TreasureData/Private/TreasureData.cpp:52-58 | the destructor sends at most one request, none exactly when no session is open, and that one is an end notice |
| TreasureData.StartSession | Source/TreasureData/Private/TreasureData.cpp:60-96 | returns the new session flag; true iff a session was open or the key is non-empty; when false nothing changes and nothing is sent; when true exactly one `{start_time}` POST to `<database>/sessions`; a new session gets id `<user id>-<clock text>`; an already open session is left as it was |
| TreasureData.EndSession | Source/TreasureData/Private/TreasureData.cpp:98-125 | with an open session: exactly one `{end_time}` POST to `<database>/sessions` and the session closed, nothing else changed; without one: no change, nothing sent |
| TreasureData.SetUserID | Source/TreasureData/Private/TreasureData.cpp:132-149 | the user id (as read back by `GetUserID`) becomes the argument only when no session is open; during a session nothing changes; never sends |
| TreasureData.SetSessionID | Source/TreasureData/Private/TreasureData.cpp:152-160 | always returns true, changes nothing (the session id read back is the old one) and sends nothing |
| TreasureData.RecordEvent | Source/TreasureData/Private/TreasureData.cpp:162-230 | never changes the provider; sends a request iff a session is open, the name is non-empty and there are no attributes; that request is one authorized POST to `<database>/<table>` with body exactly `player_time`, `action = name` |
| TreasureData.SetAge | Source/TreasureData/Private/TreasureData.cpp:244-247 | stores the age, changes nothing else, sends nothing |
| TreasureData.SetLocation | Source/TreasureData/Private/TreasureData.cpp:249-252 | stores the location, changes nothing else, sends nothing |
| TreasureData.SetGender | Source/TreasureData/Private/TreasureData.cpp:254-257 | stores the gender, changes nothing else, sends nothing |
| TreasureData.SetBuildInfo | Source/TreasureData/Private/TreasureData.cpp:259-262 | stores the build info, changes nothing else, sends nothing |
| Http.Post | Source/TreasureData/Private/TreasureData.cpp:83-88 | the request built has verb `POST`, `Content-Type: application/json` and `X-TD-Write-Key` equal to the key, as read back by header lookup |
| Sessions.ApplyStep | Source/TreasureData/Private/TreasureData.cpp:60-262 | any single call keeps the configuration, sends at most one request, which is authorized and addressed to the sessions or events URL, changes the session id only when opening a session, and changes the user id only with no session open |
| Sessions.RunKeepsConfig | Source/TreasureData/Private/TreasureData.cpp:39-50 | no sequence of calls ever changes the write key, database or table |
| Sessions.RunRequestsAuthorized | Source/TreasureData/Private/TreasureData.cpp:84-195 | every request any sequence of calls sends is a JSON POST with the configured write key, to `<database>/sessions` or `<database>/<table>` |
| Sessions.NoKeyNoTraffic | Source/TreasureData/Private/TreasureData.cpp:64-95 | a provider with an empty write key and no session never opens one and never sends anything, whatever is called |
| Sessions.NoStartNoTraffic | Source/TreasureData/Private/TreasureData.cpp:98-172 | with no session open and no start call, no sequence of calls sends anything (events included) or opens a session |
| Sessions.ApplyBalance | Source/TreasureData/Private/TreasureData.cpp:64-125 | a single call never adds an end notice without closing a session, and never opens a session without sending a start notice |
| Sessions.SessionBalance | Source/TreasureData/Private/TreasureData.cpp:64-125 | over any sequence of calls, end notices plus the final open flag never exceed start notices plus the initial open flag |
| Sessions.LifetimeEndsBounded | Source/TreasureData/Private/TreasureData.cpp:52-125 | from construction through the destructor, the provider sends no more end notices than start notices |
| Sessions.StartThenEnd | Source/TreasureData/Private/TreasureData.cpp:60-125 | with a write key and no session, start then end closes the session again and sends exactly a start notice then an end notice |
| Sessions.ProfileNotTransmitted | Source/TreasureData/Private/TreasureData.cpp:244-262 | two providers differing only in age, location, gender and build info send exactly the same requests under any sequence of calls and stay so |

## Left out

- The HTTP transport (`FHttpModule`, `ProcessRequest`) and the completion callback `EventRequestComplete`: the transport is an asynchronous foreign library and the callback only logs. A request is modelled as handed over; delivery is not.
- `GetAPIURL()` is not part of this model: a request's path is what the provider appends to the base URL.
- The real clock: every `FDateTime::Now()` reading is a `Clock` parameter. `StartSession` reads the clock twice (for the session id text and for the timestamp); the model takes both from one `Clock` value.
- `UE_LOG` logging, and with it the attribute walk in `RecordEvent` that extracts Category, Label and Value (with the floating-point `FCString::Atof`) only for a log line.
- The JSON writer: a body is the key/value list written, not its serialised text.
- TreasureData.New — assumes the class header (not part of this model) sets `bHasSessionStarted` to false and `Age` to 0; the constructor's initialiser list (lines 39-45) sets only the key, database and table. `Sessions.LifetimeEndsBounded`, and `Sessions.NoKeyNoTraffic` applied to a new provider, rest on this assumption; `Sessions.SessionBalance` allows any starting flag.
- TreasureData.CreateAnalyticsProvider — assumes the static `FAnalyticsProviderTreasureData::Create` (not part of this model) builds a new provider on every call. If it instead hands back a held singleton, the contract describes only the first call.
- `StartupModule` and `ShutdownModule` of the module class `FAnalyticsTreasureData`, and the static `Provider` member and the static `Create`/`Destroy` of the provider class `FAnalyticsProviderTreasureData`: host lifecycle plumbing. `TreasureData.Destructor` models the destructor `~FAnalyticsProviderTreasureData`, not the static `Destroy()`.
- `FlushEvents`, both overloads of `RecordItemPurchase`, `RecordCurrencyPurchase` and `RecordCurrencyGiven`, `RecordError` and `RecordProgress`: empty bodies with no behaviour.
- `GetUserID` and `GetSessionID` carry no contract of their own; they are stated through the setters and `StartSession`, which read back through them.
- Thread safety: the source has no synchronisation.
