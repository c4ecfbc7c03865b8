/**
  `BaseTest`: the per-class server set-up and clean-up, the per-test
  `initializeDriver()` with its three attempts and two-second back-off, and
  `tearDown()`. Every worker owns one registry slot; the Appium service and
  the factory's static driver are shared by all of them.
 */
module Lifecycle {
  import opened JavaLang
  import opened Effects
  import opened Registry
  import opened UtilConfig
  import opened ServerSupervisor
  import opened DriverFactory

  /** The state the lifecycle reads and writes: the static service, `DriverFactory`'s static driver, and the slots. */
  datatype World = World(service: Option<Service>, factoryDriver: Option<DriverId>, slots: Slots)

  /** What `implicitlyWait(...)` followed by `getPageSource()` did. */
  datatype ProbeAnswer = ProbeOk | ProbeThrew(e: Exc)

  /**
    The environment's answers during one attempt of `initializeDriver()`:
    whether an existing service still reports running, the server start's
    per-port answers, the factory's answers, `BaseTest`'s own ten session-id
    polls, the probe, and whether the back-off sleep after a failure is
    interrupted. `quit()` answers are absent: every `quit()` here sits in its
    own `try`, so what it does never changes the outcome.
   */
  datatype AttemptEnv = AttemptEnv(
    serverUp: bool,
    ports: seq<PortAnswer>,
    factory: FactoryEnv,
    polls: seq<IdAnswer>,
    probe: ProbeAnswer,
    backoffInterrupted: bool)

  predicate ValidAttemptEnv(env: AttemptEnv) {
    |env.ports| == MaxPortAttempts && ValidEnv(env.factory) && |env.polls| == SessionPollLimit
  }

  const MaxRetries: nat := 3
  const InitFailedMessage: string := "Driver initialization failed after 3 attempts"
  const NoSessionIdMessage: string := "Failed to obtain valid session ID"

  /** The static service as `isRunning()` reports it now. */
  function Observe(service: Option<Service>, up: bool): (r: Option<Service>)
    ensures r.None? <==> service.None?
    ensures IsRunning(r) <==> service.Some? && up
  {
    match service
    case None => None
    case Some(s) => Some(s.(running := up))
  }

  // ---------------------------------------------------------------------------
  // The session-id poll of initializeDriver()

  /**
    The `for (i = 0; i < 10 && sessionId == null; i++)` loop, from `i` on: a
    null id and a throwing query are treated alike, and both sleep one second
    only when another round follows.
   */
  function SessionPoll(d: DriverId, polls: seq<IdAnswer>, i: nat): (r: Poll)
    requires |polls| == SessionPollLimit && i <= SessionPollLimit
    ensures r.found <==> !NoSessionFrom(polls, i)
    ensures forall e :: e in r.trace ==> e == QuerySession(d) || e == Sleep(PollMillis)
    decreases SessionPollLimit - i
  {
    if i == SessionPollLimit then Poll(false, [])
    else if polls[i].SessionId? then Poll(true, [QuerySession(d)])
    else
      var rest := SessionPoll(d, polls, i + 1);
      Poll(rest.found, [QuerySession(d)] + (if i < SessionPollLimit - 1 then [Sleep(PollMillis)] else []) + rest.trace)
  }

  /** A session id first seen at round `k` costs `k + 1` queries and `k` sleeps. */
  lemma {:induction false} SessionPollFindsFirst(d: DriverId, polls: seq<IdAnswer>, i: nat, k: nat)
    requires |polls| == SessionPollLimit && i <= SessionPollLimit
    requires FirstSessionFrom(polls, i, k)
    ensures var r := SessionPoll(d, polls, i);
      r.found && multiset(r.trace)[QuerySession(d)] == k + 1 - i && Sleeps(r.trace, PollMillis) == k - i
    decreases SessionPollLimit - i
  {
    if i < k {
      SessionPollFindsFirst(d, polls, i + 1, k);
    }
  }

  /**
    Without any session id all ten queries are made with a sleep between
    consecutive ones: nine sleeps, none after the last query, whatever the
    last query did.
   */
  lemma {:induction false} SessionPollExhausts(d: DriverId, polls: seq<IdAnswer>, i: nat)
    requires |polls| == SessionPollLimit && i < SessionPollLimit
    requires NoSessionFrom(polls, i)
    ensures var r := SessionPoll(d, polls, i);
      && !r.found
      && multiset(r.trace)[QuerySession(d)] == SessionPollLimit - i
      && Sleeps(r.trace, PollMillis) == SessionPollLimit - 1 - i
    decreases SessionPollLimit - i
  {
    if i < SessionPollLimit - 1 {
      SessionPollExhausts(d, polls, i + 1);
    }
  }

  // ---------------------------------------------------------------------------
  // One attempt of initializeDriver()

  /** What a step of the lifecycle did: its result, the new world, and its calls. */
  datatype AttemptRun = AttemptRun(result: Result<DriverId>, world: World, trace: seq<Event>)

  /**
    Quit and forget the worker's existing driver, if any: the `quit()` error
    is swallowed and the `finally` always removes the slot.
   */
  function DropExisting(slots: Slots, w: Worker): (r: (Slots, seq<Event>))
    ensures r.0 == Remove(slots, w)
    ensures Get(slots, w).None? ==> r.1 == []
    ensures Get(slots, w).Some? ==> r.1 == [Quit(slots[w])]
  {
    match Get(slots, w)
    case None => (slots, [])
    case Some(stale) => (Remove(slots, w), [Quit(stale)])
  }

  /**
    From the session-id poll to `setDriver`: a driver whose id never shows is
    refused with "Failed to obtain valid session ID"; one that shows an id is
    probed, and stored in the worker's slot only when the probe passes. A
    probe failure quits the driver and rethrows the probe's own exception.
   */
  function Validate(d: DriverId, w: Worker, world: World, env: AttemptEnv): (r: AttemptRun)
    requires |env.polls| == SessionPollLimit
    ensures r.result.Ok? <==> !NoSessionFrom(env.polls, 0) && env.probe == ProbeOk
    ensures r.result.Ok? ==> r.result.value == d && r.world == world.(slots := Set(world.slots, w, d))
    ensures r.result.Throw? ==> r.world == world
    ensures NoSessionFrom(env.polls, 0) ==> r.result == Throw(Runtime(NoSessionIdMessage, None))
    ensures !NoSessionFrom(env.polls, 0) && env.probe.ProbeThrew? ==> r.result == Throw(env.probe.e)
    ensures Sleep(BackoffMillis) !in r.trace
  {
    var poll := SessionPoll(d, env.polls, 0);
    if !poll.found then
      AttemptRun(Throw(Runtime(NoSessionIdMessage, None)), world, poll.trace)
    else
      match env.probe
      case ProbeOk => AttemptRun(Ok(d), world.(slots := Set(world.slots, w, d)), poll.trace + [Probe(d)])
      case ProbeThrew(e) => AttemptRun(Throw(e), world, poll.trace + [Probe(d), Quit(d)])
  }

  /** A validation that saw a session id but failed the probe quits the driver and rethrows the probe's own exception. */
  lemma ValidateProbeFailureQuits(d: DriverId, w: Worker, world: World, env: AttemptEnv)
    requires |env.polls| == SessionPollLimit
    requires !NoSessionFrom(env.polls, 0) && env.probe.ProbeThrew?
    ensures var r := Validate(d, w, world, env);
      && r.result == Throw(env.probe.e)
      && r.world == world
      && Quits(r.trace, d) == 1
      && r.trace[|r.trace| - 2..] == [Probe(d), Quit(d)]
  {
    var poll := SessionPoll(d, env.polls, 0);
    assert Quit(d) !in poll.trace;
  }

  /** The exception every attempt on an unknown platform ends with. */
  function UnsupportedFailure(p: Properties): (e: Exc)
    requires PlatformKey in p
    ensures e.message == CriticalMessage && e.cause.Some?
    ensures e.cause.value.cause == Some(Exc(IllegalArgumentException, UnsupportedMessage(JavaText.ToLower(p[PlatformKey])), None))
  {
    var platform := JavaText.ToLower(p[PlatformKey]);
    Wrap(platform, Exc(IllegalArgumentException, UnsupportedMessage(platform), None))
  }

  /** The platform name in the configuration lower-cases to neither "android" nor "ios". */
  predicate UnknownPlatform(p: Properties) {
    PlatformKey in p && ResolvePlatform(JavaText.ToLower(p[PlatformKey])).None?
  }

  /** `ensureAppiumServerRunning()` at the start of an attempt made while the static service is `service`. */
  function ServerStep(p: Properties, service: Option<Service>, env: AttemptEnv): ServerRun
    requires ValidAttemptEnv(env)
  {
    EnsureAppiumServerRunning(Observe(service, env.serverUp), p, env.ports)
  }

  /**
    The exception an attempt ends with, if any, taken in the order the `try`
    block runs: the server start's error, then the factory's, then a session
    id that never shows ("Failed to obtain valid session ID"), then the
    probe's own exception.
   */
  function AttemptFailure(p: Properties, home: string, service: Option<Service>, env: AttemptEnv): Option<Exc>
    requires ValidAttemptEnv(env)
  {
    var server := ServerStep(p, service, env);
    var factory := GetDriver(p, home, env.factory, None).result;
    if server.error.Some? then server.error
    else if factory.Throw? then Some(factory.exc)
    else if NoSessionFrom(env.polls, 0) then Some(Runtime(NoSessionIdMessage, None))
    else if env.probe.ProbeThrew? then Some(env.probe.e)
    else None
  }

  /**
    `services` and `failures` faithfully record attempts `from` onwards of a
    retry loop whose attempt, made while the state is `s` with answers `e`,
    ends with the exception `fail(s, e)`, if any, and leaves the state
    `step(s, e)`: each attempt found the state the previous one left, each
    recorded failure is its own attempt's exception, and in a run that
    succeeded the attempt after the last failure ended with none.
   */
  ghost predicate Agrees<S(!new), E, X>(fail: (S, E) -> Option<X>, step: (S, E) -> S, envs: seq<E>,
                                  services: seq<S>, failures: seq<X>, succeeded: bool, from: nat)
    requires |failures| <= |services| <= |envs|
  {
    && (forall i {:trigger step(services[i], envs[i])} :: from <= i < |services| - 1 ==>
          services[i + 1] == step(services[i], envs[i]))
    && (forall i {:trigger fail(services[i], envs[i])} :: from <= i < |failures| ==>
          fail(services[i], envs[i]) == Some(failures[i]))
    && (succeeded ==> forall i {:trigger fail(services[i], envs[i])} :: from <= i && |failures| <= i < |services| ==>
          fail(services[i], envs[i]).None?)
  }

  /**
    Recording attempt `from`, made in state `s`: a success is recorded as the
    attempt alone; a failure as its exception, followed by the state `next`
    it left for the next attempt.
   */
  lemma AgreesStep<S(!new), E, X>(fail: (S, E) -> Option<X>, step: (S, E) -> S, envs: seq<E>,
                            services: seq<S>, failures: seq<X>, s: S, next: S, from: nat)
    requires from < |envs| && |services| == |failures| == from
    requires fail(s, envs[from]).Some? ==> next == step(s, envs[from])
    ensures fail(s, envs[from]).None? ==> Agrees(fail, step, envs, services + [s], failures, true, from)
    ensures fail(s, envs[from]).Some? ==>
      Agrees(fail, step, envs, services + [s], failures + [fail(s, envs[from]).value], false, from)
    ensures fail(s, envs[from]).Some? && from + 1 < |envs| ==>
      Agrees(fail, step, envs, services + [s, next], failures + [fail(s, envs[from]).value], false, from)
  {
    var seen := services + [s];
    assert seen[from] == s;
    if fail(s, envs[from]).Some? {
      var failed := failures + [fail(s, envs[from]).value];
      assert failed[from] == fail(s, envs[from]).value;
      if from + 1 < |envs| {
        var both := seen + [next];
        assert both[from] == s && both[from + 1] == next;
      }
    }
  }

  /**
    A record that agrees from attempt `from + 1` on agrees from `from` once
    its first two states and its first failure are those of a faithful
    record of attempt `from`.
   */
  lemma AgreesJoin<S(!new), E, X>(fail: (S, E) -> Option<X>, step: (S, E) -> S, envs: seq<E>,
                            head: seq<S>, headFailures: seq<X>, services: seq<S>, failures: seq<X>, succeeded: bool, from: nat)
    requires |failures| <= |services| <= |envs|
    requires |head| == from + 2 <= |services| && |headFailures| == from + 1 <= |failures|
    requires services[..from + 2] == head && failures[..from + 1] == headFailures
    requires Agrees(fail, step, envs, head, headFailures, false, from)
    requires Agrees(fail, step, envs, services, failures, succeeded, from + 1)
    ensures Agrees(fail, step, envs, services, failures, succeeded, from)
  {
    assert services[from] == head[from] && services[from + 1] == head[from + 1] && failures[from] == headFailures[from];
    assert services[from + 1] == step(head[from], envs[from]);
    assert fail(head[from], envs[from]) == Some(headFailures[from]);
  }

  /** What a faithful record says about one attempt `k` it covers. */
  lemma AgreesAt<S(!new), E, X>(fail: (S, E) -> Option<X>, step: (S, E) -> S, envs: seq<E>,
                          services: seq<S>, failures: seq<X>, succeeded: bool, from: nat, k: nat)
    requires |failures| <= |services| <= |envs|
    requires Agrees(fail, step, envs, services, failures, succeeded, from) && from <= k < |services|
    ensures k + 1 < |services| ==> services[k + 1] == step(services[k], envs[k])
    ensures k < |failures| ==> fail(services[k], envs[k]) == Some(failures[k])
    ensures succeeded && |failures| <= k ==> fail(services[k], envs[k]).None?
  {
    if k + 1 < |services| {
      assert services[k + 1] == step(services[k], envs[k]);
    }
    if k < |failures| {
      assert fail(services[k], envs[k]) == Some(failures[k]);
    } else if succeeded {
      assert fail(services[k], envs[k]).None?;
    }
  }

  /**
    An attempt's exception, as a function of the static service it finds and
    its answers. Answers of the wrong shape never reach an attempt (every
    caller requires `ValidAttemptEnv`); they read as no exception so that the
    function is total.
   */
  function FailureOf(p: Properties, home: string): (Option<Service>, AttemptEnv) -> Option<Exc> {
    (s: Option<Service>, e: AttemptEnv) => if ValidAttemptEnv(e) then AttemptFailure(p, home, s, e) else None
  }

  /** The static service an attempt's server start leaves, as a function of the one it finds and its answers (unchanged for answers of the wrong shape). */
  function ServiceLeftBy(p: Properties): (Option<Service>, AttemptEnv) -> Option<Service> {
    (s: Option<Service>, e: AttemptEnv) => if ValidAttemptEnv(e) then ServerStep(p, s, e).service else s
  }

  /**
    What `initializeDriver()` recorded about attempts `from` onwards
    agrees with the attempts themselves: each found the static service the
    previous attempt's server start left, each recorded failure is the
    exception its own attempt ended with, and in a run that succeeded the
    attempt after the last failure threw nothing.
   */
  ghost predicate RecordedFrom(p: Properties, home: string, envs: seq<AttemptEnv>,
                               services: seq<Option<Service>>, failures: seq<Exc>, succeeded: bool, from: nat)
    requires |failures| <= |services| <= |envs|
  {
    Agrees(FailureOf(p, home), ServiceLeftBy(p), envs, services, failures, succeeded, from)
  }

  /**
    The record of a run that failed attempt `from` with `e`, leaving the
    service `next`, and then went on: it keeps the earlier record, and it is
    faithful from `from` on when its continuation is faithful from the next
    attempt on.
   */
  lemma RecordedJoin(p: Properties, home: string, envs: seq<AttemptEnv>, services: seq<Option<Service>>, failures: seq<Exc>,
                     s: Option<Service>, next: Option<Service>, e: Exc,
                     allServices: seq<Option<Service>>, allFailures: seq<Exc>, succeeded: bool, from: nat)
    requires |failures| == |services| == from && from + 1 < |envs| && forall j :: 0 <= j < |envs| ==> ValidAttemptEnv(envs[j])
    requires RecordedFrom(p, home, envs, services + [s, next], failures + [e], false, from)
    requires |allFailures| <= |allServices| <= |envs| && from + 1 < |allServices| && from < |allFailures|
    requires allServices[..from + 1] == services + [s] && allServices[from + 1] == next
    requires allFailures[..from + 1] == failures + [e]
    requires RecordedFrom(p, home, envs, allServices, allFailures, succeeded, from + 1)
    ensures allServices[..from] == services && allServices[from] == s && allFailures[..from] == failures
    ensures RecordedFrom(p, home, envs, allServices, allFailures, succeeded, from)
  {
    assert allServices[..from] == allServices[..from + 1][..from];
    assert allFailures[..from] == allFailures[..from + 1][..from];
    assert allServices[from] == (services + [s])[from];
    assert allServices[..from + 2] == services + [s, next];
    AgreesJoin(FailureOf(p, home), ServiceLeftBy(p), envs, services + [s, next], failures + [e],
               allServices, allFailures, succeeded, from);
  }

  /**
    Attempt `k` of a faithful record, read in the model's own terms: it found
    the service recorded for it, ended with its recorded failure (or with
    none, when it is the attempt that succeeded), and left the service the
    next attempt found.
   */
  lemma RecordedAttempt(p: Properties, home: string, envs: seq<AttemptEnv>,
                        services: seq<Option<Service>>, failures: seq<Exc>, succeeded: bool, k: nat)
    requires |failures| <= |services| <= |envs| && forall j :: 0 <= j < |envs| ==> ValidAttemptEnv(envs[j])
    requires RecordedFrom(p, home, envs, services, failures, succeeded, 0) && k < |services|
    ensures k + 1 < |services| ==> services[k + 1] == ServerStep(p, services[k], envs[k]).service
    ensures k < |failures| ==> AttemptFailure(p, home, services[k], envs[k]) == Some(failures[k])
    ensures succeeded && |failures| <= k ==> AttemptFailure(p, home, services[k], envs[k]).None?
  {
    AgreesAt(FailureOf(p, home), ServiceLeftBy(p), envs, services, failures, succeeded, 0, k);
  }

  /**
    An attempt in which the server neither still runs nor comes up on any of
    the ten ports fails with the server start's error, before the factory is
    asked.
   */
  lemma ServerDownFailsAttempt(p: Properties, home: string, service: Option<Service>, env: AttemptEnv)
    requires ValidAttemptEnv(env) && !env.serverUp && NoneStartedFrom(env.ports, 0)
    ensures AttemptFailure(p, home, service, env).Some?
    ensures AttemptFailure(p, home, service, env).value.message == StartFailedPrefix + ScanFailedMessage
  {
    StartSucceedsIff(Observe(service, env.serverUp), p, env.ports);
  }

  /**
    The first two steps of an attempt: quit and forget the worker's existing
    driver, then `ensureAppiumServerRunning()`. `error` is what the server
    start threw, if anything.
   */
  method Prepare(p: Properties, w: Worker, world: World, env: AttemptEnv) returns (error: Option<Exc>, after: World, trace: seq<Event>)
    requires ValidAttemptEnv(env)
    ensures after.slots == Remove(world.slots, w) && after.factoryDriver == world.factoryDriver
    ensures error == ServerStep(p, world.service, env).error && after.service == ServerStep(p, world.service, env).service
    ensures error.None? ==> IsRunning(after.service)
    ensures IsRunning(world.service) && env.serverUp ==> error.None? && after.service == world.service
    ensures Get(world.slots, w).Some? ==> |trace| > 0 && trace[0] == Quit(world.slots[w])
    ensures Sleep(BackoffMillis) !in trace
  {
    var (slots, dropped) := DropExisting(world.slots, w);
    var server := EnsureAppiumServerRunning(Observe(world.service, env.serverUp), p, env.ports);
    NoSleepsExcludes(server.trace, BackoffMillis);
    error := server.error;
    after := World(server.service, world.factoryDriver, slots);
    trace := dropped + server.trace;
  }

  /** The `DriverFactory.getDriver()` call of an attempt, as `initializeDriver()` sees it. */
  method RequestDriver(p: Properties, home: string, env: AttemptEnv, staticDriver: Option<DriverId>) returns (f: FactoryRun)
    requires ValidAttemptEnv(env)
    ensures f.result.Ok? ==> env.factory.construct == Constructed(f.result.value)
    ensures f.result == GetDriver(p, home, env.factory, None).result
    ensures UnknownPlatform(p) ==> f.result == Throw(UnsupportedFailure(p))
    ensures Sleep(BackoffMillis) !in f.trace
  {
    f := GetDriver(p, home, env.factory, staticDriver);
    GetDriverResultIgnoresStatic(p, home, env.factory, staticDriver, None);
    NoOtherSleeps(f.trace, PollMillis, BackoffMillis);
    if UnknownPlatform(p) {
      UnsupportedPlatformRejected(p, home, env.factory, staticDriver);
    }
  }

  /**
    The body of the `try` in `initializeDriver()`'s loop: drop the existing
    driver, make sure the server runs, ask the factory for a driver, and
    validate it; the slot holds the new driver only when all of that passed.
   */
  method Attempt(p: Properties, home: string, w: Worker, world: World, env: AttemptEnv) returns (r: AttemptRun)
    requires ValidAttemptEnv(env)
    ensures r.result.Ok? ==>
      && r.world.slots == Set(world.slots, w, r.result.value)
      && env.factory.construct == Constructed(r.result.value)
      && !NoSessionFrom(env.polls, 0)
      && env.probe == ProbeOk
      && IsRunning(r.world.service)
    ensures r.result.Throw? ==> r.world.slots == Remove(world.slots, w)
    ensures r.result.Ok? <==> AttemptFailure(p, home, world.service, env).None?
    ensures r.result.Throw? ==> AttemptFailure(p, home, world.service, env) == Some(r.result.exc)
    ensures r.world.service == ServerStep(p, world.service, env).service
    ensures Get(world.slots, w).Some? ==> |r.trace| > 0 && r.trace[0] == Quit(world.slots[w])
    ensures Sleep(BackoffMillis) !in r.trace
    ensures IsRunning(world.service) && env.serverUp && UnknownPlatform(p) ==>
      r.result == Throw(UnsupportedFailure(p)) && r.world.service == world.service
  {
    var error, afterServer, prepared := Prepare(p, w, world, env);
    if error.Some? {
      return AttemptRun(Throw(error.value), afterServer, prepared);
    }
    var f := RequestDriver(p, home, env, world.factoryDriver);
    var afterFactory := afterServer.(factoryDriver := f.staticDriver);
    if f.result.Throw? {
      return AttemptRun(Throw(f.result.exc), afterFactory, prepared + f.trace);
    }
    var v := Validate(f.result.value, w, afterFactory, env);
    SetAfterRemove(world.slots, w);
    r := AttemptRun(v.result, v.world, prepared + f.trace + v.trace);
  }

  // ---------------------------------------------------------------------------
  // initializeDriver()

  /**
    What `initializeDriver()` did: the result, how many attempts were made,
    the exception of each failed attempt in order, the static service as
    each attempt found it, the new world, and the calls.
   */
  datatype InitRun = InitRun(result: Result<DriverId>, attempts: nat, failures: seq<Exc>, services: seq<Option<Service>>,
                             world: World, trace: seq<Event>)

  /** The final `throw`: "Driver initialization failed after 3 attempts", caused by the last failure. */
  function GiveUp(last: Option<Exc>): (e: Exc)
    ensures e.kind == RuntimeException && e.message == InitFailedMessage && e.cause == last
  {
    Runtime(InitFailedMessage, last)
  }

  /** How many back-offs follow the first `n` failed attempts: one each, except after the last attempt. */
  function BackoffsAfter(n: nat): (r: nat)
    ensures r <= MaxRetries - 1 && r <= n
    ensures n < MaxRetries ==> r == n
  {
    if n < MaxRetries then n else MaxRetries - 1
  }

  /**
    The `catch` block after attempt `retry` failed: quit and remove whatever
    the slot holds, then sleep two seconds unless this was the last attempt.
    `interrupted` reports that the sleep was interrupted, which ends the loop.
   */
  method Recover(w: Worker, failed: World, retry: nat, interruptible: bool) returns (world: World, trace: seq<Event>, interrupted: bool)
    requires retry < MaxRetries
    ensures world == failed.(slots := Remove(failed.slots, w))
    ensures Sleeps(trace, BackoffMillis) == (if retry < MaxRetries - 1 then 1 else 0)
    ensures Get(failed.slots, w).None? ==> trace == (if retry < MaxRetries - 1 then [Sleep(BackoffMillis)] else [])
    ensures interrupted <==> retry < MaxRetries - 1 && interruptible
  {
    var (slots, dropped) := DropExisting(failed.slots, w);
    world := failed.(slots := slots);
    trace := dropped;
    interrupted := false;
    if retry < MaxRetries - 1 {
      trace := trace + [Sleep(BackoffMillis)];
      interrupted := interruptible;
    }
  }

  /**
    One pass of the loop body, attempt `retry`: the `try` block, and when it
    failed the `catch` block's clean-up and back-off. A failure is recorded
    as the attempt's own exception; the static service is left where the
    attempt's server start left it.
   */
  method Round(p: Properties, home: string, w: Worker, start: World, envs: seq<AttemptEnv>,
               retry: nat, services: seq<Option<Service>>, failures: seq<Exc>, current: World, trace: seq<Event>)
    returns (a: AttemptRun, cleaned: World, after: seq<Event>, interrupted: bool)
    requires |envs| == MaxRetries && retry < MaxRetries
    requires forall i :: 0 <= i < |envs| ==> ValidAttemptEnv(envs[i])
    requires |services| == |failures| == retry
    requires current.slots == if retry == 0 then start.slots else Remove(start.slots, w)
    ensures a.result.Ok? ==>
      && a.world.slots == Set(start.slots, w, a.result.value)
      && envs[retry].factory.construct == Constructed(a.result.value)
      && !NoSessionFrom(envs[retry].polls, 0)
      && envs[retry].probe == ProbeOk
      && RecordedFrom(p, home, envs, services + [current.service], failures, true, retry)
      && Sleeps(after, BackoffMillis) == Sleeps(trace, BackoffMillis)
    ensures a.result.Throw? ==>
      && RecordedFrom(p, home, envs, services + [current.service], failures + [a.result.exc], false, retry)
      && (retry + 1 < MaxRetries ==>
            RecordedFrom(p, home, envs, services + [current.service, cleaned.service], failures + [a.result.exc], false, retry))
      && cleaned.slots == Remove(start.slots, w)
      && Sleeps(after, BackoffMillis) == Sleeps(trace, BackoffMillis) + (if retry < MaxRetries - 1 then 1 else 0)
      && (interrupted <==> retry < MaxRetries - 1 && envs[retry].backoffInterrupted)
  {
    a := Attempt(p, home, w, current, envs[retry]);
    SetAfterRemove(start.slots, w);
    cleaned, after, interrupted := a.world, trace + a.trace, false;
    if a.result.Throw? {
      var recovery;
      cleaned, recovery, interrupted := Recover(w, a.world, retry, envs[retry].backoffInterrupted);
      after := after + recovery;
    }
    AgreesStep(FailureOf(p, home), ServiceLeftBy(p), envs, services, failures, current.service, cleaned.service, retry);
  }

  /** Every attempt would find the server up and the platform unknown: the factory refuses each one the same way. */
  predicate RefusedEverywhere(p: Properties, world: World, envs: seq<AttemptEnv>) {
    UnknownPlatform(p) && IsRunning(world.service) && forall i :: 0 <= i < |envs| ==> envs[i].serverUp
  }

  /** An attempt that finds the server running and up reaches the factory, which refuses an unknown platform. */
  lemma RefusedAttemptFails(p: Properties, home: string, service: Option<Service>, env: AttemptEnv)
    requires ValidAttemptEnv(env) && IsRunning(service) && env.serverUp && UnknownPlatform(p)
    ensures ServerStep(p, service, env).service == service
    ensures AttemptFailure(p, home, service, env) == Some(UnsupportedFailure(p))
  {
    assert Observe(service, env.serverUp) == service;
    UnsupportedPlatformRejected(p, home, env.factory, None);
  }

  /** A state no attempt moves stays where the record started: attempt `k` finds the state the first one found. */
  lemma {:induction false} AgreesSteady<S(!new), E, X>(fail: (S, E) -> Option<X>, step: (S, E) -> S, envs: seq<E>,
                                                      services: seq<S>, failures: seq<X>, succeeded: bool, k: nat)
    requires |failures| <= |services| <= |envs|
    requires Agrees(fail, step, envs, services, failures, succeeded, 0) && k < |services|
    requires forall i :: 0 <= i < |envs| ==> step(services[0], envs[i]) == services[0]
    ensures services[k] == services[0]
  {
    if k > 0 {
      AgreesSteady(fail, step, envs, services, failures, succeeded, k - 1);
      AgreesAt(fail, step, envs, services, failures, succeeded, 0, k - 1);
    }
  }

  /** When every attempt is refused, no server start moves the static service: attempt `k` finds it as it was. */
  lemma RefusedKeepsService(p: Properties, home: string, start: World, envs: seq<AttemptEnv>,
                            services: seq<Option<Service>>, failures: seq<Exc>, succeeded: bool, k: nat)
    requires |failures| <= |services| <= |envs| && forall j :: 0 <= j < |envs| ==> ValidAttemptEnv(envs[j])
    requires k < |services| && services[0] == start.service && RecordedFrom(p, home, envs, services, failures, succeeded, 0)
    requires RefusedEverywhere(p, start, envs)
    ensures services[k] == start.service
  {
    forall i | 0 <= i < |envs|
      ensures ServiceLeftBy(p)(services[0], envs[i]) == services[0]
    {
      RefusedAttemptFails(p, home, start.service, envs[i]);
    }
    AgreesSteady(FailureOf(p, home), ServiceLeftBy(p), envs, services, failures, succeeded, k);
  }

  /** When no attempt's server ever comes up, the run gives up, caused by the server start's error. */
  lemma ServerDownRunThrows(p: Properties, home: string, start: World, envs: seq<AttemptEnv>, r: InitRun)
    requires |envs| == MaxRetries && forall j :: 0 <= j < |envs| ==> ValidAttemptEnv(envs[j])
    requires 1 <= r.attempts <= MaxRetries && |r.failures| <= r.attempts && |r.services| == r.attempts
    requires RecordedFrom(p, home, envs, r.services, r.failures, r.result.Ok?, 0)
    requires r.result.Ok? ==> |r.failures| == r.attempts - 1
    requires r.result.Throw? ==> |r.failures| == r.attempts && r.result.exc == GiveUp(Some(r.failures[|r.failures| - 1]))
    ensures (forall i :: 0 <= i < |envs| ==> !envs[i].serverUp && NoneStartedFrom(envs[i].ports, 0)) ==>
      r.result.Throw? && r.result.exc.cause.value.message == StartFailedPrefix + ScanFailedMessage
  {
    if forall i :: 0 <= i < |envs| ==> !envs[i].serverUp && NoneStartedFrom(envs[i].ports, 0) {
      var last := r.attempts - 1;
      ServerDownFailsAttempt(p, home, r.services[last], envs[last]);
      RecordedAttempt(p, home, envs, r.services, r.failures, r.result.Ok?, last);
      var failure := AttemptFailure(p, home, r.services[last], envs[last]);
      assert r.result.Throw?;
      assert r.result.exc.cause == Some(r.failures[last]) == failure;
    }
  }

  /** When every attempt is refused, the run gives up, caused by the platform error. */
  lemma RefusedRunThrows(p: Properties, home: string, start: World, envs: seq<AttemptEnv>, r: InitRun)
    requires |envs| == MaxRetries && forall j :: 0 <= j < |envs| ==> ValidAttemptEnv(envs[j])
    requires 1 <= r.attempts <= MaxRetries && |r.failures| <= r.attempts && |r.services| == r.attempts
    requires r.services[0] == start.service && RecordedFrom(p, home, envs, r.services, r.failures, r.result.Ok?, 0)
    requires r.result.Ok? ==> |r.failures| == r.attempts - 1
    requires r.result.Throw? ==> |r.failures| == r.attempts && r.result.exc == GiveUp(Some(r.failures[|r.failures| - 1]))
    ensures RefusedEverywhere(p, start, envs) ==> r.result == Throw(GiveUp(Some(UnsupportedFailure(p))))
  {
    if RefusedEverywhere(p, start, envs) {
      var last := r.attempts - 1;
      RefusedKeepsService(p, home, start, envs, r.services, r.failures, r.result.Ok?, last);
      RefusedAttemptFails(p, home, start.service, envs[last]);
      RecordedAttempt(p, home, envs, r.services, r.failures, r.result.Ok?, last);
    }
  }

  /**
    The `while (currentRetry < maxRetries)` loop of `initializeDriver()`,
    entered at attempt `retry` after `failures` (one per earlier attempt)
    and the `services` the earlier attempts found, with the world `current`
    and the calls `trace` so far; `start` is the world `initializeDriver()`
    was called in. A failed attempt's exception is remembered and, after the
    clean-up and back-off, the next attempt starts; an interrupted back-off
    leaves the loop at once. Giving up throws "Driver initialization failed
    after 3 attempts" caused by the last failure.
   */
  method RetryFrom(p: Properties, home: string, w: Worker, start: World, envs: seq<AttemptEnv>,
                   retry: nat, failures: seq<Exc>, services: seq<Option<Service>>, current: World, trace: seq<Event>)
    returns (r: InitRun)
    requires |envs| == MaxRetries && retry < MaxRetries
    requires forall i :: 0 <= i < |envs| ==> ValidAttemptEnv(envs[i])
    requires |failures| == retry && |services| == retry && Sleeps(trace, BackoffMillis) == retry
    requires current.slots == if retry == 0 then start.slots else Remove(start.slots, w)
    ensures retry < r.attempts <= MaxRetries && retry <= |r.failures| <= r.attempts
    ensures r.failures[..retry] == failures
    ensures |r.services| == r.attempts && r.services[..retry] == services && r.services[retry] == current.service
    ensures RecordedFrom(p, home, envs, r.services, r.failures, r.result.Ok?, retry)
    ensures r.result.Ok? ==>
      && |r.failures| == r.attempts - 1
      && r.world.slots == Set(start.slots, w, r.result.value)
      && envs[r.attempts - 1].factory.construct == Constructed(r.result.value)
      && !NoSessionFrom(envs[r.attempts - 1].polls, 0)
      && envs[r.attempts - 1].probe == ProbeOk
      && Sleeps(r.trace, BackoffMillis) == r.attempts - 1
    ensures r.result.Throw? ==>
      && |r.failures| == r.attempts
      && r.result.exc == GiveUp(Some(r.failures[|r.failures| - 1]))
      && r.world.slots == Remove(start.slots, w)
      && Sleeps(r.trace, BackoffMillis) == BackoffsAfter(r.attempts)
      && (r.attempts < MaxRetries ==> envs[r.attempts - 1].backoffInterrupted)
    ensures forall i :: retry <= i < r.attempts - 1 ==> !envs[i].backoffInterrupted
    decreases MaxRetries - retry, 1
  {
    var a, cleaned, after, interrupted := Round(p, home, w, start, envs, retry, services, failures, current, trace);
    var seen := services + [current.service];
    assert seen[..retry] == services;
    if a.result.Ok? {
      r := InitRun(a.result, retry + 1, failures, seen, a.world, after);
      assert r.services == seen && r.failures == failures && r.result.Ok?;
      return;
    }
    var failed := failures + [a.result.exc];
    assert failed[..retry] == failures;
    if interrupted || retry == MaxRetries - 1 {
      assert retry + 1 < MaxRetries ==> envs[retry].backoffInterrupted;
      r := InitRun(Throw(GiveUp(Some(a.result.exc))), retry + 1, failed, seen, cleaned, after);
      assert r.services == seen && r.failures == failed && !r.result.Ok?;
      return;
    }
    r := RetryAfterFailure(p, home, w, start, envs, retry, failures, services, current, a.result.exc, cleaned, after);
  }

  /** Attempt `retry` failed with `e` and left the world `cleaned` after its back-off: the loop goes on with the next attempt. */
  method RetryAfterFailure(p: Properties, home: string, w: Worker, start: World, envs: seq<AttemptEnv>,
                           retry: nat, failures: seq<Exc>, services: seq<Option<Service>>, current: World,
                           e: Exc, cleaned: World, trace: seq<Event>)
    returns (r: InitRun)
    requires |envs| == MaxRetries && retry + 1 < MaxRetries
    requires forall i :: 0 <= i < |envs| ==> ValidAttemptEnv(envs[i])
    requires |failures| == retry && |services| == retry && Sleeps(trace, BackoffMillis) == retry + 1
    requires cleaned.slots == Remove(start.slots, w) && !envs[retry].backoffInterrupted
    requires RecordedFrom(p, home, envs, services + [current.service, cleaned.service], failures + [e], false, retry)
    ensures retry < r.attempts <= MaxRetries && retry <= |r.failures| <= r.attempts
    ensures r.failures[..retry] == failures
    ensures |r.services| == r.attempts && r.services[..retry] == services && r.services[retry] == current.service
    ensures RecordedFrom(p, home, envs, r.services, r.failures, r.result.Ok?, retry)
    ensures r.result.Ok? ==>
      && |r.failures| == r.attempts - 1
      && r.world.slots == Set(start.slots, w, r.result.value)
      && envs[r.attempts - 1].factory.construct == Constructed(r.result.value)
      && !NoSessionFrom(envs[r.attempts - 1].polls, 0)
      && envs[r.attempts - 1].probe == ProbeOk
      && Sleeps(r.trace, BackoffMillis) == r.attempts - 1
    ensures r.result.Throw? ==>
      && |r.failures| == r.attempts
      && r.result.exc == GiveUp(Some(r.failures[|r.failures| - 1]))
      && r.world.slots == Remove(start.slots, w)
      && Sleeps(r.trace, BackoffMillis) == BackoffsAfter(r.attempts)
      && (r.attempts < MaxRetries ==> envs[r.attempts - 1].backoffInterrupted)
    ensures forall i :: retry <= i < r.attempts - 1 ==> !envs[i].backoffInterrupted
    decreases MaxRetries - retry, 0
  {
    r := RetryFrom(p, home, w, start, envs, retry + 1, failures + [e], services + [current.service], cleaned, trace);
    RecordedJoin(p, home, envs, services, failures, current.service, cleaned.service, e,
                 r.services, r.failures, r.result.Ok?, retry);
  }

  /**
    `initializeDriver()` on worker `w`, with the answers of each of its three
    attempts: at most three attempts, two-second back-offs only between
    them, each recorded failure the exception its own attempt ended with,
    and a driver in the slot only when it passed validation.
   */
  method InitializeDriver(p: Properties, home: string, w: Worker, world: World, envs: seq<AttemptEnv>) returns (r: InitRun)
    requires |envs| == MaxRetries
    requires forall i :: 0 <= i < |envs| ==> ValidAttemptEnv(envs[i])
    ensures 1 <= r.attempts <= MaxRetries && |r.failures| <= r.attempts
    ensures |r.services| == r.attempts && r.services[0] == world.service
    ensures RecordedFrom(p, home, envs, r.services, r.failures, r.result.Ok?, 0)
    ensures r.result.Ok? ==>
      && |r.failures| == r.attempts - 1
      && r.world.slots == Set(world.slots, w, r.result.value)
      && envs[r.attempts - 1].factory.construct == Constructed(r.result.value)
      && !NoSessionFrom(envs[r.attempts - 1].polls, 0)
      && envs[r.attempts - 1].probe == ProbeOk
      && Sleeps(r.trace, BackoffMillis) == r.attempts - 1
    ensures r.result.Throw? ==>
      && |r.failures| == r.attempts
      && r.result.exc == GiveUp(Some(r.failures[|r.failures| - 1]))
      && r.world.slots == Remove(world.slots, w)
      && Sleeps(r.trace, BackoffMillis) == BackoffsAfter(r.attempts)
      && (r.attempts < MaxRetries ==> envs[r.attempts - 1].backoffInterrupted)
    ensures forall i :: 0 <= i < r.attempts - 1 ==> !envs[i].backoffInterrupted
    ensures (forall i :: 0 <= i < |envs| ==> !envs[i].backoffInterrupted) && r.result.Throw? ==>
      r.attempts == MaxRetries && |r.failures| == MaxRetries && Sleeps(r.trace, BackoffMillis) == MaxRetries - 1
    ensures RefusedEverywhere(p, world, envs) ==> r.result == Throw(GiveUp(Some(UnsupportedFailure(p))))
    ensures (forall i :: 0 <= i < |envs| ==> !envs[i].serverUp && NoneStartedFrom(envs[i].ports, 0)) ==>
      r.result.Throw? && r.result.exc.cause.value.message == StartFailedPrefix + ScanFailedMessage
  {
    r := RetryFrom(p, home, w, world, envs, 0, [], [], world, []);
    ServerDownRunThrows(p, home, world, envs, r);
    RefusedRunThrows(p, home, world, envs, r);
  }

  /**
    An interrupted back-off ends `initializeDriver()` at once: when the first
    attempt fails because the server never comes up and the sleep after it is
    interrupted, there is exactly one attempt and one back-off, and the call
    still throws, caused by the server start's error.
   */
  method InterruptedBackoffEndsRun(p: Properties, home: string, w: Worker, world: World, envs: seq<AttemptEnv>) returns (r: InitRun)
    requires |envs| == MaxRetries
    requires forall i :: 0 <= i < |envs| ==> ValidAttemptEnv(envs[i])
    requires !envs[0].serverUp && NoneStartedFrom(envs[0].ports, 0) && envs[0].backoffInterrupted
    ensures r.attempts == 1 && r.result.Throw? && Sleeps(r.trace, BackoffMillis) == 1
    ensures r.result.exc.message == InitFailedMessage && r.result.exc.cause.Some?
    ensures r.result.exc.cause.value.message == StartFailedPrefix + ScanFailedMessage
    ensures r.world.slots == Remove(world.slots, w)
  {
    r := InitializeDriver(p, home, w, world, envs);
    ServerDownFailsAttempt(p, home, world.service, envs[0]);
    RecordedAttempt(p, home, envs, r.services, r.failures, r.result.Ok?, 0);
  }

  // ---------------------------------------------------------------------------
  // tearDown()

  /**
    The answers `tearDown()` reads: the evidence step's `getSessionId()`
    (asked only when the test failed) and the `getSessionId()` that decides
    whether to quit.
   */
  datatype TeardownEnv = TeardownEnv(evidenceId: IdAnswer, checkId: IdAnswer)

  /** `tearDown()` returns nothing and throws nothing: only the new world and the calls. */
  datatype TeardownRun = TeardownRun(world: World, trace: seq<Event>)

  /**
    `tearDown()` on worker `w`: with a driver in the slot, a failed test first
    asks for its session id (only logged); then the driver is quit exactly
    when its session id reads non-null; every error is swallowed, and the
    `finally` always empties the slot. Without a driver nothing happens.
   */
  function TearDown(w: Worker, world: World, testFailed: bool, env: TeardownEnv): (r: TeardownRun)
    ensures r.world == world.(slots := Remove(world.slots, w))
    ensures Get(world.slots, w).None? ==> r.trace == []
    ensures Get(world.slots, w).Some? ==>
      var d := world.slots[w];
      && Quits(r.trace, d) == (if env.checkId.SessionId? then 1 else 0)
      && OnlyQuits(r.trace, d)
      && NoSleeps(r.trace)
  {
    match Get(world.slots, w)
    case None => TeardownRun(world, [])
    case Some(d) =>
      var evidence := if testFailed then [QuerySession(d)] else [];
      var check := if env.checkId.SessionId? then [QuerySession(d), Quit(d)] else [QuerySession(d)];
      TeardownRun(world.(slots := Remove(world.slots, w)), evidence + check)
  }

  /**
    Tearing down after `setDriver(d)` undoes it: the worker's slot is back to
    empty, whatever it held before, and `d` itself is quit exactly when its
    session id still reads non-null.
   */
  lemma TearDownUndoesSet(w: Worker, world: World, d: DriverId, testFailed: bool, env: TeardownEnv)
    ensures var r := TearDown(w, world.(slots := Set(world.slots, w, d)), testFailed, env);
      && r.world == world.(slots := Remove(world.slots, w))
      && Quits(r.trace, d) == (if env.checkId.SessionId? then 1 else 0)
  {
    SetThenRemove(world.slots, w, d);
  }

  /** `tearDown()` on one worker leaves every other worker's slot, the service and the factory's driver as they were. */
  lemma TearDownIsolated(w: Worker, v: Worker, world: World, testFailed: bool, env: TeardownEnv)
    requires v != w
    ensures var r := TearDown(w, world, testFailed, env);
      && Get(r.world.slots, v) == Get(world.slots, v)
      && r.world.service == world.service && r.world.factoryDriver == world.factoryDriver
  {
  }

  /** A second `tearDown()` finds the slot empty and does nothing. */
  lemma TearDownTwice(w: Worker, world: World, testFailed: bool, env: TeardownEnv, again: TeardownEnv)
    ensures var r := TearDown(w, world, testFailed, env);
      TearDown(w, r.world, testFailed, again) == TeardownRun(r.world, [])
  {
  }

  // ---------------------------------------------------------------------------
  // Class-level set-up and clean-up

  /**
    `setUp()` starts the server through `ensureAppiumServerRunning()` and
    `afterClass()` stops it, swallowing any error: once the set-up succeeded,
    the clean-up calls `stop()` on exactly the service the set-up left
    running; when `stop()` returns, it then kills stray server processes and
    the service is stopped, and when `stop()` throws, the kill is skipped and
    the service is left as it was.
   */
  lemma SetUpThenAfterClass(service: Option<Service>, up: bool, config: Properties, answers: seq<PortAnswer>, stopThrows: bool)
    requires |answers| == MaxPortAttempts
    requires EnsureAppiumServerRunning(Observe(service, up), config, answers).error.None?
    ensures var started := EnsureAppiumServerRunning(Observe(service, up), config, answers);
      var stopped := StopAppiumServer(started.service, stopThrows);
      && IsRunning(started.service)
      && stopped.error.None?
      && stopped.service == (if stopThrows then started.service else Some(Service(started.service.value.port, false)))
      && stopped.trace == [StopService(started.service.value.port)] + (if stopThrows then [] else [Kill])
  {
  }

}
