/**
  Sequences of calls on one provider, and what holds across all of them:
  the configuration never changes, every request carries the write key, a
  provider without a write key never sends anything, end notices never
  outnumber start notices, and the passive profile never reaches the wire.
 */
module Sessions {

  import opened Http
  import opened TreasureData

  /** One call a host makes on the provider (the getters change nothing and are left to the lemmas). */
  datatype Command =
    | Start(attributes: seq<Attribute>, now: Clock)
    | End(now: Clock)
    | SetUser(userId: string)
    | SetSession(sessionId: string)
    | Record(eventName: string, attributes: seq<Attribute>, now: Clock)
    | SetUserAge(age: int32)
    | SetUserLocation(location: string)
    | SetUserGender(gender: string)
    | SetUserBuildInfo(buildInfo: string)

  /** The provider and requests after one call, its return value dropped. */
  function Apply(p: Provider, c: Command): Reply<()>
  {
    match c
    case Start(attributes, now) =>
      var r := TreasureData.StartSession(p, attributes, now); Reply(r.next, r.sent, ())
    case End(now) => TreasureData.EndSession(p, now)
    case SetUser(userId) => TreasureData.SetUserID(p, userId)
    case SetSession(sessionId) =>
      var r := TreasureData.SetSessionID(p, sessionId); Reply(r.next, r.sent, ())
    case Record(eventName, attributes, now) => TreasureData.RecordEvent(p, eventName, attributes, now)
    case SetUserAge(age) => TreasureData.SetAge(p, age)
    case SetUserLocation(location) => TreasureData.SetLocation(p, location)
    case SetUserGender(gender) => TreasureData.SetGender(p, gender)
    case SetUserBuildInfo(buildInfo) => TreasureData.SetBuildInfo(p, buildInfo)
  }

  /** The calls in order: the final provider and every request sent, in sending order. */
  function Run(p: Provider, cs: seq<Command>): Reply<()>
    decreases |cs|
  {
    if cs == [] then Reply(p, [], ())
    else
      var first := Apply(p, cs[0]);
      var rest := Run(first.next, cs[1..]);
      Reply(rest.next, first.sent + rest.sent, ())
  }

  /** How many requests in `sent` carry the one-field body keyed `key` (a session notice). */
  function CountNotices(sent: seq<Request>, key: string): nat
  {
    if sent == [] then 0
    else (if |sent[0].body| == 1 && sent[0].body[0].key == key then 1 else 0) + CountNotices(sent[1..], key)
  }

  function Flag(b: bool): nat
  {
    if b then 1 else 0
  }

  /** The two places a provider sends to. */
  predicate Addressed(req: Request, c: Config)
  {
    req.path == SessionsPath(c) || req.path == EventsPath(c)
  }

  /** Same provider up to the four passive profile fields. */
  predicate SameButProfile(p: Provider, q: Provider)
  {
    p.(age := q.age, location := q.location, gender := q.gender, buildInfo := q.buildInfo) == q
  }

  lemma {:induction false} CountNoticesAppend(a: seq<Request>, b: seq<Request>, key: string)
    ensures CountNotices(a + b, key) == CountNotices(a, key) + CountNotices(b, key)
    decreases |a|
  {
    if a != [] {
      assert (a + b)[1..] == a[1..] + b;
      CountNoticesAppend(a[1..], b, key);
    } else {
      assert a + b == b;
    }
  }

  /** One call: configuration kept, at most one request, and that one well addressed and keyed. */
  lemma ApplyStep(p: Provider, c: Command)
    ensures Apply(p, c).next.config == p.config
    ensures |Apply(p, c).sent| <= 1
    ensures forall i :: 0 <= i < |Apply(p, c).sent| ==>
      Authorized(Apply(p, c).sent[i], p.config.apiKey) && Addressed(Apply(p, c).sent[i], p.config)
    ensures Apply(p, c).next.sessionId != p.sessionId ==> !p.sessionStarted && Apply(p, c).next.sessionStarted
    ensures Apply(p, c).next.userId != p.userId ==> !p.sessionStarted
  {
  }

  /** No call changes the write key, database or table. */
  lemma {:induction false} RunKeepsConfig(p: Provider, cs: seq<Command>)
    ensures Run(p, cs).next.config == p.config
    decreases |cs|
  {
    if cs != [] {
      ApplyStep(p, cs[0]);
      RunKeepsConfig(Apply(p, cs[0]).next, cs[1..]);
    }
  }

  /** Every request ever sent is a JSON POST with the write key, to the sessions or the events URL. */
  lemma {:induction false} RunRequestsAuthorized(p: Provider, cs: seq<Command>)
    ensures forall i :: 0 <= i < |Run(p, cs).sent| ==>
      Authorized(Run(p, cs).sent[i], p.config.apiKey) && Addressed(Run(p, cs).sent[i], p.config)
    decreases |cs|
  {
    if cs != [] {
      var first := Apply(p, cs[0]);
      ApplyStep(p, cs[0]);
      RunRequestsAuthorized(first.next, cs[1..]);
    }
  }

  /** A provider built with an empty write key never opens a session and never sends anything. */
  lemma {:induction false} NoKeyNoTraffic(p: Provider, cs: seq<Command>)
    requires !p.sessionStarted && p.config.apiKey == ""
    ensures Run(p, cs).sent == []
    ensures !Run(p, cs).next.sessionStarted
    decreases |cs|
  {
    if cs != [] {
      var first := Apply(p, cs[0]);
      ApplyStep(p, cs[0]);
      assert first.sent == [] && !first.next.sessionStarted;
      NoKeyNoTraffic(first.next, cs[1..]);
    }
  }

  /** One call keeps the balance between end and start notices and the open flag. */
  lemma ApplyBalance(p: Provider, c: Command)
    ensures CountNotices(Apply(p, c).sent, EndTimeKey) + Flag(Apply(p, c).next.sessionStarted)
         <= CountNotices(Apply(p, c).sent, StartTimeKey) + Flag(p.sessionStarted)
  {
  }

  /**
    End notices never outnumber start notices: each end closes a session that
    some start opened (or that was open to begin with).
   */
  lemma {:induction false} SessionBalance(p: Provider, cs: seq<Command>)
    ensures CountNotices(Run(p, cs).sent, EndTimeKey) + Flag(Run(p, cs).next.sessionStarted)
         <= CountNotices(Run(p, cs).sent, StartTimeKey) + Flag(p.sessionStarted)
    decreases |cs|
  {
    if cs != [] {
      var first := Apply(p, cs[0]);
      var rest := Run(first.next, cs[1..]);
      assert Run(p, cs) == Reply(rest.next, first.sent + rest.sent, ());
      ApplyBalance(p, cs[0]);
      SessionBalance(first.next, cs[1..]);
      CountNoticesAppend(first.sent, rest.sent, EndTimeKey);
      CountNoticesAppend(first.sent, rest.sent, StartTimeKey);
    }
  }

  /**
    Over a whole lifetime, from a fresh provider through the destructor, the
    provider sends no more end notices than start notices. This rests on
    `New` starting with the session flag cleared, which the class header
    (not part of this model) is assumed to do: the constructor's own
    initialiser list sets only the key, database and table.
   */
  lemma LifetimeEndsBounded(key: string, database: string, table: string, cs: seq<Command>, last: Clock)
    ensures var r := Run(New(key, database, table), cs);
      CountNotices(r.sent + Destructor(r.next, last), EndTimeKey) <= CountNotices(r.sent, StartTimeKey)
  {
    var r := Run(New(key, database, table), cs);
    SessionBalance(New(key, database, table), cs);
    CountNoticesAppend(r.sent, Destructor(r.next, last), EndTimeKey);
    assert CountNotices(Destructor(r.next, last), EndTimeKey) == Flag(r.next.sessionStarted);
  }

  /** Age, location, gender and build info are stored but never change what is sent or the session. */
  lemma {:induction false} ProfileNotTransmitted(p: Provider, q: Provider, cs: seq<Command>)
    requires SameButProfile(p, q)
    ensures Run(p, cs).sent == Run(q, cs).sent
    ensures SameButProfile(Run(p, cs).next, Run(q, cs).next)
    decreases |cs|
  {
    if cs != [] {
      var a := Apply(p, cs[0]);
      var b := Apply(q, cs[0]);
      assert a.sent == b.sent && SameButProfile(a.next, b.next);
      ProfileNotTransmitted(a.next, b.next, cs[1..]);
    }
  }


  /**
    On a provider with a write key and no session, a start followed by an
    end opens and closes the session and sends exactly the two notices.
   */
  lemma StartThenEnd(p: Provider, attributes: seq<Attribute>, t0: Clock, t1: Clock)
    requires !p.sessionStarted && p.config.apiKey != ""
    ensures var r := Run(p, [Start(attributes, t0), End(t1)]);
      && !r.next.sessionStarted
      && |r.sent| == 2
      && IsSessionNotice(r.sent[0], p.config, StartTimeKey, t0.unix)
      && IsSessionNotice(r.sent[1], p.config, EndTimeKey, t1.unix)
  {
    var cs := [Start(attributes, t0), End(t1)];
    var started := Apply(p, cs[0]);
    var closed := Apply(started.next, cs[1]);
    assert cs[1..] == [End(t1)] && cs[1..][1..] == [];
    assert Run(started.next, cs[1..]) == Reply(closed.next, closed.sent + [], ());
    assert started.next.sessionStarted && |started.sent| == 1 && |closed.sent| == 1;
  }

  /** Without a session and without a start call, nothing is ever sent, events included. */
  lemma {:induction false} NoStartNoTraffic(p: Provider, cs: seq<Command>)
    requires !p.sessionStarted
    requires forall i :: 0 <= i < |cs| ==> !cs[i].Start?
    ensures Run(p, cs).sent == []
    ensures !Run(p, cs).next.sessionStarted
    decreases |cs|
  {
    if cs != [] {
      var first := Apply(p, cs[0]);
      assert first.sent == [] && !first.next.sessionStarted;
      NoStartNoTraffic(first.next, cs[1..]);
    }
  }

}
