/**
  `DriverFactory`: opens one Appium session for the configured platform,
  validates it with a bounded session-id poll, remembers it in the static
  `driver` field, and turns every failure into
  "Critical error in driver initialization" after quitting any half-built
  driver. Also `quitDriver` and `isSessionActive` over the static field.
 */
module DriverFactory {
  import opened JavaLang
  import opened JavaText
  import opened Effects
  import opened UtilConfig
  import opened Capabilities

  datatype Platform = AndroidPlatform | IOSPlatform

  /** The `switch` on the lower-cased platform name: only "android" and "ios" are known. */
  function ResolvePlatform(name: string): (r: Option<Platform>)
    ensures r == Some(AndroidPlatform) <==> name == "android"
    ensures r == Some(IOSPlatform) <==> name == "ios"
  {
    if name == "android" then Some(AndroidPlatform)
    else if name == "ios" then Some(IOSPlatform)
    else None
  }

  /** What `new AndroidDriver(url, options)` / `new IOSDriver(url, options)` is called with. */
  datatype Request =
    | AndroidRequest(url: string, android: AndroidOptions)
    | IOSRequest(url: string, ios: IOSOptions)

  /** Whether the driver constructor returned a driver or threw. */
  datatype ConstructAnswer = Constructed(driver: DriverId) | ConstructThrew(e: Exc)

  const SessionPollLimit: nat := 10

  /**
    The environment's answers for one `getDriver()` call: the constructor, up
    to ten validation polls, the `getSessionId()` evaluated for the success
    log line, and `quit()` on a driver that failed validation.
   */
  datatype FactoryEnv = FactoryEnv(construct: ConstructAnswer, polls: seq<IdAnswer>, logId: IdAnswer, quit: QuitAnswer)

  predicate ValidEnv(env: FactoryEnv) {
    |env.polls| == SessionPollLimit
  }

  const CriticalMessage: string := "Critical error in driver initialization"
  const SessionFailedMessage: string := "Failed to establish valid driver session"

  function UnsupportedMessage(platform: string): string {
    "Unsupported platform: " + platform
  }

  function InitFailedMessage(platform: string): string {
    "Failed to initialize " + platform + " driver"
  }

  /** The two `catch` blocks of `getDriver`: the inner one names the platform, the outer one is always "Critical". */
  function Wrap(platform: string, e: Exc): (r: Exc)
    ensures r.kind == RuntimeException && r.message == CriticalMessage
    ensures CauseChain(r) == [r, Runtime(InitFailedMessage(platform), Some(e))] + CauseChain(e)
  {
    Runtime(CriticalMessage, Some(Runtime(InitFailedMessage(platform), Some(e))))
  }

  /** `createAndroidDriver()` / `createIOSDriver()` up to the constructor call: options, then the server URL. */
  function BuildRequest(p: Properties, home: string, platform: Platform): (r: Result<Request>)
    ensures r.Ok? ==> GetProperty(p, ServerUrlKey) == Some(r.value.url)
    ensures r.Ok? ==> (platform == AndroidPlatform <==> r.value.AndroidRequest?)
    ensures GetProperty(p, ServerUrlKey).None? ==> r.Throw?
  {
    match platform
    case AndroidPlatform => (
      match AndroidCapabilities(p)
      case Throw(e) => Throw(e)
      case Ok(options) =>
        match GetProperty(p, ServerUrlKey)
        case None => Throw(NullPointer)
        case Some(url) => Ok(AndroidRequest(url, options)))
    case IOSPlatform =>
      match IOSCapabilities(p, home)
      case Throw(e) => Throw(e)
      case Ok(options) =>
        match GetProperty(p, ServerUrlKey)
        case None => Throw(NullPointer)
        case Some(url) => Ok(IOSRequest(url, options))
  }

  // ---------------------------------------------------------------------------
  // The validation poll

  datatype Poll = Poll(found: bool, trace: seq<Event>)

  predicate FirstSessionFrom(polls: seq<IdAnswer>, from: nat, k: nat) {
    from <= k < |polls| && polls[k].SessionId?
    && forall j :: from <= j < k ==> !polls[j].SessionId?
  }

  predicate NoSessionFrom(polls: seq<IdAnswer>, from: nat) {
    forall k :: from <= k < |polls| ==> !polls[k].SessionId?
  }

  /**
    The `for (int i = 0; i < maxWait; i++)` loop of `getDriver`, from `i` on.
    A null id sleeps one second (even on the last round); a throwing query
    sleeps only when another round follows.
   */
  function FactoryPoll(d: DriverId, polls: seq<IdAnswer>, i: nat): (r: Poll)
    requires |polls| == SessionPollLimit && i <= SessionPollLimit
    ensures r.found <==> !NoSessionFrom(polls, i)
    ensures OnlySleepsOf(r.trace, PollMillis) && OnlyQuits(r.trace, d)
    ensures forall e :: e in r.trace ==> e == QuerySession(d) || e == Sleep(PollMillis)
    decreases SessionPollLimit - i
  {
    if i == SessionPollLimit then Poll(false, [])
    else
      match polls[i]
      case SessionId(_) => Poll(true, [QuerySession(d)])
      case NoSession =>
        var rest := FactoryPoll(d, polls, i + 1);
        Poll(rest.found, [QuerySession(d), Sleep(PollMillis)] + rest.trace)
      case IdThrew(_) =>
        var rest := FactoryPoll(d, polls, i + 1);
        Poll(rest.found, [QuerySession(d)] + (if i < SessionPollLimit - 1 then [Sleep(PollMillis)] else []) + rest.trace)
  }

  /** A session found at round `k` costs `k + 1` queries and `k` one-second sleeps. */
  lemma {:induction false} FactoryPollFindsFirst(d: DriverId, polls: seq<IdAnswer>, i: nat, k: nat)
    requires |polls| == SessionPollLimit && i <= SessionPollLimit
    requires FirstSessionFrom(polls, i, k)
    ensures var r := FactoryPoll(d, polls, i);
      r.found && multiset(r.trace)[QuerySession(d)] == k + 1 - i && Sleeps(r.trace, PollMillis) == k - i
    decreases SessionPollLimit - i
  {
    var r := FactoryPoll(d, polls, i);
    if i < k {
      FactoryPollFindsFirst(d, polls, i + 1, k);
      var rest := FactoryPoll(d, polls, i + 1);
      if polls[i].NoSession? {
        assert r.trace == [QuerySession(d), Sleep(PollMillis)] + rest.trace;
      } else {
        assert r.trace == [QuerySession(d)] + [Sleep(PollMillis)] + rest.trace;
        assert [QuerySession(d)] + [Sleep(PollMillis)] == [QuerySession(d), Sleep(PollMillis)];
      }
      QuerySleepCounts(d, rest.trace);
    } else {
      assert r.trace == [QuerySession(d)];
    }
  }

  /** One more query followed by one more one-second sleep. */
  lemma QuerySleepCounts(d: DriverId, t: seq<Event>)
    ensures var u := [QuerySession(d), Sleep(PollMillis)] + t;
      multiset(u)[QuerySession(d)] == multiset(t)[QuerySession(d)] + 1 && Sleeps(u, PollMillis) == Sleeps(t, PollMillis) + 1
  {
    var u := [QuerySession(d), Sleep(PollMillis)] + t;
    assert multiset(u) == multiset{QuerySession(d), Sleep(PollMillis)} + multiset(t);
  }

  /**
    With no session id in any round, all ten queries are made, and a sleep
    follows every one of them except a final query that threw: ten sleeps when
    the last read was a plain null.
   */
  lemma {:induction false} FactoryPollExhausts(d: DriverId, polls: seq<IdAnswer>, i: nat)
    requires |polls| == SessionPollLimit && i <= SessionPollLimit
    requires NoSessionFrom(polls, i)
    ensures var r := FactoryPoll(d, polls, i);
      && !r.found
      && multiset(r.trace)[QuerySession(d)] == SessionPollLimit - i
      && Sleeps(r.trace, PollMillis) ==
           if i < SessionPollLimit && polls[SessionPollLimit - 1].IdThrew? then SessionPollLimit - i - 1
           else SessionPollLimit - i
    decreases SessionPollLimit - i
  {
    if i < SessionPollLimit {
      FactoryPollExhausts(d, polls, i + 1);
    }
  }

  // ---------------------------------------------------------------------------
  // getDriver()

  /**
    What one `getDriver()` call did: its result, the request the driver was
    constructed from (once that point was reached), the static `driver`
    field afterwards, and its calls.
   */
  datatype FactoryRun = FactoryRun(result: Result<DriverId>, request: Option<Request>, staticDriver: Option<DriverId>, trace: seq<Event>)

  /**
    `DriverFactory.getDriver()`. The static field changes only once a polled
    session id was seen; every exception that leaves is a `RuntimeException`
    "Critical error in driver initialization".
   */
  function GetDriver(p: Properties, home: string, env: FactoryEnv, staticDriver: Option<DriverId>): (r: FactoryRun)
    requires ValidEnv(env)
    ensures r.result.Throw? ==> r.result.exc.kind == RuntimeException && r.result.exc.message == CriticalMessage
    ensures r.result.Ok? ==>
      && env.construct == Constructed(r.result.value)
      && !NoSessionFrom(env.polls, 0)
      && r.staticDriver == Some(r.result.value)
      && Quits(r.trace, r.result.value) == 0
    ensures r.staticDriver != staticDriver ==>
      env.construct.Constructed? && r.staticDriver == Some(env.construct.driver) && !NoSessionFrom(env.polls, 0)
    ensures OnlySleepsOf(r.trace, PollMillis)
    ensures env.construct.Constructed? ==> OnlyQuits(r.trace, env.construct.driver)
    ensures env.construct.ConstructThrew? ==> r.trace == []
  {
    match GetProperty(p, PlatformKey)
    case None =>
      // `getPlatform().toLowerCase()` on null: caught only by the outer handler
      FactoryRun(Throw(Runtime(CriticalMessage, Some(NullPointer))), None, staticDriver, [])
    case Some(raw) =>
      var platform := ToLower(raw);
      match ResolvePlatform(platform)
      case None =>
        FactoryRun(Throw(Wrap(platform, Exc(IllegalArgumentException, UnsupportedMessage(platform), None))), None, staticDriver, [])
      case Some(kind) =>
        match BuildRequest(p, home, kind)
        case Throw(e) => FactoryRun(Throw(Wrap(platform, e)), None, staticDriver, [])
        case Ok(request) => Launch(platform, request, env, staticDriver)
  }

  /**
    The part of `getDriver()` after the capabilities are built: construct the
    driver, poll for its session id, publish it in the static field, and quit
    it when any later step fails.
   */
  function Launch(platform: string, request: Request, env: FactoryEnv, staticDriver: Option<DriverId>): (r: FactoryRun)
    requires ValidEnv(env)
    ensures r.request == Some(request)
    ensures r.result.Throw? ==> r.result.exc.kind == RuntimeException && r.result.exc.message == CriticalMessage
    ensures r.result.Ok? <==> env.construct.Constructed? && !NoSessionFrom(env.polls, 0) && !env.logId.IdThrew?
    ensures r.result.Ok? ==>
      && env.construct == Constructed(r.result.value)
      && r.staticDriver == Some(r.result.value)
      && Quits(r.trace, r.result.value) == 0
    ensures env.construct.ConstructThrew? ==> r.result == Throw(Wrap(platform, env.construct.e))
    ensures env.construct.Constructed? && NoSessionFrom(env.polls, 0) ==>
      r.result == Throw(Wrap(platform, Runtime(SessionFailedMessage, None))) && r.staticDriver == staticDriver
    ensures env.construct.Constructed? && !NoSessionFrom(env.polls, 0) && env.logId.IdThrew? ==>
      r.result == Throw(Wrap(platform, env.logId.e))
    ensures r.staticDriver != staticDriver ==>
      env.construct.Constructed? && r.staticDriver == Some(env.construct.driver) && !NoSessionFrom(env.polls, 0)
    ensures OnlySleepsOf(r.trace, PollMillis)
    ensures env.construct.Constructed? ==> OnlyQuits(r.trace, env.construct.driver)
    ensures env.construct.ConstructThrew? ==> r.trace == []
  {
    match env.construct
    case ConstructThrew(e) => FactoryRun(Throw(Wrap(platform, e)), Some(request), staticDriver, [])
    case Constructed(d) =>
      var poll := FactoryPoll(d, env.polls, 0);
      if !poll.found then
        OnlyAppend(poll.trace, [Quit(d)], PollMillis, d);
        FactoryRun(Throw(Wrap(platform, Runtime(SessionFailedMessage, None))), Some(request), staticDriver,
                   poll.trace + [Quit(d)])
      else
        // `driver = newDriver` happens before the log line's own `getSessionId()`
        match env.logId
        case IdThrew(e) =>
          OnlyAppend(poll.trace, [QuerySession(d), Quit(d)], PollMillis, d);
          FactoryRun(Throw(Wrap(platform, e)), Some(request), Some(d), poll.trace + [QuerySession(d), Quit(d)])
        case _ =>
          assert Quit(d) !in poll.trace;
          OnlyAppend(poll.trace, [QuerySession(d)], PollMillis, d);
          FactoryRun(Ok(d), Some(request), Some(d), poll.trace + [QuerySession(d)])
  }

  /**
    A platform name that does not lower-case to "android" or "ios" is refused
    before anything is built or constructed: `IllegalArgumentException`
    "Unsupported platform: <name>", wrapped twice, the static field unchanged.
   */
  lemma UnsupportedPlatformRejected(p: Properties, home: string, env: FactoryEnv, staticDriver: Option<DriverId>)
    requires ValidEnv(env)
    requires PlatformKey in p && ResolvePlatform(ToLower(p[PlatformKey])).None?
    ensures var r := GetDriver(p, home, env, staticDriver);
      var platform := ToLower(p[PlatformKey]);
      && r.result == Throw(Wrap(platform, Exc(IllegalArgumentException, UnsupportedMessage(platform), None)))
      && CauseChain(r.result.exc)[2] == Exc(IllegalArgumentException, "Unsupported platform: " + platform, None)
      && r.trace == [] && r.request.None? && r.staticDriver == staticDriver
  {
  }

  /** The platform name is matched case-insensitively: "Android", "ANDROID" and "aNdRoId" all select Android. */
  lemma AndroidMatchIgnoresCase(raw: string)
    ensures ResolvePlatform(ToLower(raw)) == Some(AndroidPlatform) <==>
      |raw| == 7 && forall i :: 0 <= i < 7 ==> raw[i] == "android"[i] || raw[i] == UpperChar("android"[i])
  {
    assert forall i :: 0 <= i < 7 ==> 'a' <= "android"[i] <= 'z';
    ToLowerIsCaseInsensitiveMatch(raw, "android");
  }

  /** Likewise "iOS", "IOS" and "ios" all select iOS. */
  lemma IOSMatchIgnoresCase(raw: string)
    ensures ResolvePlatform(ToLower(raw)) == Some(IOSPlatform) <==>
      |raw| == 3 && forall i :: 0 <= i < 3 ==> raw[i] == "ios"[i] || raw[i] == UpperChar("ios"[i])
  {
    assert forall i :: 0 <= i < 3 ==> 'a' <= "ios"[i] <= 'z';
    ToLowerIsCaseInsensitiveMatch(raw, "ios");
  }

  /**
    `getDriver()` returns a driver exactly when the platform is known, its
    request can be built, the constructor returns, some poll among the ten
    sees a session id, and the log line's `getSessionId()` does not throw.
   */
  lemma GetDriverSucceedsIff(p: Properties, home: string, env: FactoryEnv, staticDriver: Option<DriverId>)
    requires ValidEnv(env)
    ensures GetDriver(p, home, env, staticDriver).result.Ok? <==>
      && PlatformKey in p
      && ResolvePlatform(ToLower(p[PlatformKey])).Some?
      && BuildRequest(p, home, ResolvePlatform(ToLower(p[PlatformKey])).value).Ok?
      && env.construct.Constructed?
      && !NoSessionFrom(env.polls, 0)
      && !env.logId.IdThrew?
  {
  }

  /**
    `getDriver()`'s result does not depend on the static field it starts with;
    only the field's new value does.
   */
  lemma GetDriverResultIgnoresStatic(p: Properties, home: string, env: FactoryEnv, s1: Option<DriverId>, s2: Option<DriverId>)
    requires ValidEnv(env)
    ensures GetDriver(p, home, env, s1).result == GetDriver(p, home, env, s2).result
    ensures GetDriver(p, home, env, s1).trace == GetDriver(p, home, env, s2).trace
  {
  }

  /** A constructed driver that fails validation or the log line is quit exactly once. */
  lemma LaunchFailureQuitsOnce(platform: string, request: Request, env: FactoryEnv, staticDriver: Option<DriverId>)
    requires ValidEnv(env) && env.construct.Constructed?
    requires Launch(platform, request, env, staticDriver).result.Throw?
    ensures Quits(Launch(platform, request, env, staticDriver).trace, env.construct.driver) == 1
  {
    var d := env.construct.driver;
    var poll := FactoryPoll(d, env.polls, 0);
    assert Quit(d) !in poll.trace;
    assert multiset(poll.trace)[Quit(d)] == 0;
    if poll.found {
      assert multiset(poll.trace + [QuerySession(d), Quit(d)]) == multiset(poll.trace) + multiset{QuerySession(d), Quit(d)};
    } else {
      assert multiset(poll.trace + [Quit(d)]) == multiset(poll.trace) + multiset{Quit(d)};
    }
  }

  /** Once a driver was constructed, any failure of `getDriver()` quits it exactly once. */
  lemma FailedDriverQuitOnce(p: Properties, home: string, env: FactoryEnv, staticDriver: Option<DriverId>)
    requires ValidEnv(env) && env.construct.Constructed?
    requires GetDriver(p, home, env, staticDriver).request.Some?
    requires GetDriver(p, home, env, staticDriver).result.Throw?
    ensures Quits(GetDriver(p, home, env, staticDriver).trace, env.construct.driver) == 1
  {
    var platform := ToLower(p[PlatformKey]);
    var request := BuildRequest(p, home, ResolvePlatform(platform).value).value;
    assert GetDriver(p, home, env, staticDriver) == Launch(platform, request, env, staticDriver);
    LaunchFailureQuitsOnce(platform, request, env, staticDriver);
  }

  /**
    The `catch` around `quit()` swallows its error: what `quit()` answers never
    changes the result, the static field or the calls made, so a quit error
    cannot replace the original cause.
   */
  lemma QuitErrorIgnored(p: Properties, home: string, env: FactoryEnv, staticDriver: Option<DriverId>, other: QuitAnswer)
    requires ValidEnv(env)
    ensures GetDriver(p, home, env.(quit := other), staticDriver) == GetDriver(p, home, env, staticDriver)
  {
  }

  /**
    The static field keeps its previous value on every failure but one: when
    the session was validated and only the log line's `getSessionId()` threw,
    the field already holds the new driver, which has just been quit.
   */
  lemma StaticDriverOnFailure(p: Properties, home: string, env: FactoryEnv, staticDriver: Option<DriverId>)
    requires ValidEnv(env)
    requires GetDriver(p, home, env, staticDriver).result.Throw?
    ensures var r := GetDriver(p, home, env, staticDriver);
      r.staticDriver == staticDriver
      || (&& env.logId.IdThrew? && env.construct.Constructed?
          && r.staticDriver == Some(env.construct.driver)
          && Quits(r.trace, env.construct.driver) == 1)
  {
    if env.construct.Constructed? {
      var d := env.construct.driver;
      assert Quit(d) !in FactoryPoll(d, env.polls, 0).trace;
    }
  }

  // ---------------------------------------------------------------------------
  // quitDriver() / isSessionActive()

  datatype QuitRun = QuitRun(staticDriver: Option<DriverId>, trace: seq<Event>)

  /**
    `quitDriver()`: asks for the session id and quits only when it is non-null;
    every error is swallowed and the `finally` always clears the static field.
   */
  function QuitDriver(staticDriver: Option<DriverId>, id: IdAnswer, quit: QuitAnswer): (r: QuitRun)
    ensures r.staticDriver.None?
    ensures staticDriver.None? ==> r.trace == []
    ensures staticDriver.Some? ==>
      Quits(r.trace, staticDriver.value) == (if id.SessionId? then 1 else 0)
      && OnlyQuits(r.trace, staticDriver.value)
  {
    match staticDriver
    case None => QuitRun(None, [])
    case Some(d) =>
      if id.SessionId? then QuitRun(None, [QuerySession(d), Quit(d)])
      else QuitRun(None, [QuerySession(d)])
  }

  /** `isSessionActive()`: a static driver whose `getSessionId()` returns non-null; an exception reads as false. */
  function IsSessionActive(staticDriver: Option<DriverId>, id: IdAnswer): (r: bool)
    ensures r <==> staticDriver.Some? && id.SessionId?
    ensures id.IdThrew? ==> !r
  {
    match staticDriver
    case None => false
    case Some(_) =>
      match id
      case SessionId(_) => true
      case NoSession => false
      case IdThrew(_) => false
  }

  /** After `quitDriver()` no session is reported active, whatever the driver would answer. */
  lemma NoActiveSessionAfterQuit(staticDriver: Option<DriverId>, id: IdAnswer, quit: QuitAnswer, later: IdAnswer)
    ensures !IsSessionActive(QuitDriver(staticDriver, id, quit).staticDriver, later)
  {
  }
}
