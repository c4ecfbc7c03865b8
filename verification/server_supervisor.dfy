/**
  The Appium server supervision of `BaseTest`: `ensureAppiumServerRunning`,
  `startAppiumServer` with its scan over ten consecutive ports, and
  `stopAppiumServer`. The static `service` field is an `Option<Service>`;
  building, starting and waiting for a server on one port is one answer
  (`PortAnswer`) supplied by the environment.
 */
module ServerSupervisor {
  import opened JavaLang
  import opened Effects
  import UtilConfig

  /** The static `AppiumDriverLocalService`: the port it was built for and whether `isRunning()` holds. */
  datatype Service = Service(port: int, running: bool)

  /**
    What building and starting a server on one port, then waiting up to the
    start timeout for it, came to: it reports running; it still does not report
    running when the wait ends; or something threw (`built` tells whether
    `buildService` had already replaced the static service).
   */
  datatype PortAnswer = Started | NotRunningInTime | StartThrew(built: bool, e: Exc)

  const MaxPortAttempts: nat := 10

  const ScanFailedMessage: string := "Failed to start Appium server after 10 attempts"
  const StartFailedPrefix: string := "Failed to start Appium server: "

  /** `basePort + portOffset` in Java `int` arithmetic. */
  function PortAt(base: Int32, offset: nat): Int32
    requires offset < MaxPortAttempts
  {
    AddInt32(base, offset as Int32)
  }

  /** The ports of offsets `lo` up to (not including) `hi`, in order. */
  function PortsFrom(base: Int32, lo: nat, hi: nat): (r: seq<int>)
    requires lo <= hi <= MaxPortAttempts
    ensures |r| == hi - lo
    decreases hi - lo
  {
    if lo == hi then [] else [PortAt(base, lo)] + PortsFrom(base, lo + 1, hi)
  }

  /** The `i`-th port of offsets `lo..hi` is the port of offset `lo + i`. */
  lemma {:induction false} PortsFromAt(base: Int32, lo: nat, hi: nat)
    requires lo <= hi <= MaxPortAttempts
    ensures forall i :: 0 <= i < hi - lo ==> PortsFrom(base, lo, hi)[i] == PortAt(base, lo + i)
    decreases hi - lo
  {
    if lo < hi {
      PortsFromAt(base, lo + 1, hi);
      var r := PortsFrom(base, lo, hi);
      forall i | 0 <= i < hi - lo
        ensures r[i] == PortAt(base, lo + i)
      {
        if i > 0 {
          assert r[i] == PortsFrom(base, lo + 1, hi)[i - 1];
        }
      }
    }
  }

  /** `lastException` after a failed attempt: the exception if one was thrown, `null` after a plain timeout. */
  function CauseOf(a: PortAnswer): (r: Option<Exc>)
    ensures r.Some? <==> a.StartThrew?
    ensures a.StartThrew? ==> r.value == a.e
  {
    if a.StartThrew? then Some(a.e) else None
  }

  /** The first offset at or after `from` whose server reports running. */
  predicate FirstStartedFrom(answers: seq<PortAnswer>, from: nat, k: nat) {
    from <= k < |answers| && answers[k].Started?
    && forall j :: from <= j < k ==> !answers[j].Started?
  }

  predicate NoneStartedFrom(answers: seq<PortAnswer>, from: nat) {
    forall k :: from <= k < |answers| ==> !answers[k].Started?
  }

  /** The ports a scan from `offset` tries: each offset's port, up to and including the first that reports running. */
  function PortsUntilStarted(base: Int32, answers: seq<PortAnswer>, offset: nat): (r: seq<int>)
    requires |answers| == MaxPortAttempts && offset <= MaxPortAttempts
    decreases MaxPortAttempts - offset
  {
    if offset == MaxPortAttempts then []
    else if answers[offset].Started? then [PortAt(base, offset) as int]
    else [PortAt(base, offset) as int] + PortsUntilStarted(base, answers, offset + 1)
  }

  /** With a first running offset `k`, the ports tried are those of offsets `offset..k`. */
  lemma {:induction false} PortsUntilFirstStarted(base: Int32, answers: seq<PortAnswer>, offset: nat, k: nat)
    requires |answers| == MaxPortAttempts && offset <= MaxPortAttempts
    requires FirstStartedFrom(answers, offset, k)
    ensures PortsUntilStarted(base, answers, offset) == PortsFrom(base, offset, k + 1)
    decreases MaxPortAttempts - offset
  {
    if k != offset {
      PortsUntilFirstStarted(base, answers, offset + 1, k);
    }
  }

  /** With no running offset, every remaining port is tried. */
  lemma {:induction false} PortsUntilNoneStarted(base: Int32, answers: seq<PortAnswer>, offset: nat)
    requires |answers| == MaxPortAttempts && offset <= MaxPortAttempts
    requires NoneStartedFrom(answers, offset)
    ensures PortsUntilStarted(base, answers, offset) == PortsFrom(base, offset, MaxPortAttempts)
    decreases MaxPortAttempts - offset
  {
    if offset < MaxPortAttempts {
      PortsUntilNoneStarted(base, answers, offset + 1);
    }
  }

  /** Where a scan ended: the port it bound, `lastException`, the static service, the ports it tried in order, and its calls. */
  datatype ScanRun = ScanRun(bound: Option<int>, last: Option<Exc>, service: Option<Service>, tried: seq<int>, trace: seq<Event>)

  /**
    The static service after an attempt that did not report running: a timed
    out attempt leaves the service it built; a throwing one calls `stop()` on
    whatever the field holds (the new service if `buildService` returned).
   */
  function AfterFailedAttempt(a: PortAnswer, port: int, service: Option<Service>): (r: Option<Service>)
    ensures !IsRunning(r)
  {
    match a
    case StartThrew(built, _) =>
      var current := if built then Some(Service(port, false)) else service;
      if current.Some? then Some(current.value.(running := false)) else None
    case _ => Some(Service(port, false))
  }

  /** The `service.stop()` call a throwing attempt makes, if the field is non-null. */
  function StopCalls(a: PortAnswer, port: int, service: Option<Service>): (r: seq<Event>)
    ensures PortsTried(r) == [] && Kill !in r && NoSleeps(r)
  {
    match a
    case StartThrew(built, _) =>
      var current := if built then Some(Service(port, false)) else service;
      if current.Some? then [StopService(current.value.port)] else []
    case _ => []
  }

  /**
    The `for (portOffset ...)` loop of `startAppiumServer`, from `offset` on:
    each offset builds and starts a server on its port; the first one that
    reports running ends the scan with the service bound there. A timeout
    resets `lastException` to `null`; a thrown exception stops whatever service
    the static field holds and becomes `lastException`.
   */
  function Scan(base: Int32, answers: seq<PortAnswer>, service: Option<Service>, offset: nat, last: Option<Exc>): (r: ScanRun)
    requires |answers| == MaxPortAttempts && offset <= MaxPortAttempts
    ensures r.bound.Some? ==> r.service == Some(Service(r.bound.value, true))
    ensures r.bound.None? && offset < MaxPortAttempts ==> !IsRunning(r.service)
    ensures r.tried == PortsUntilStarted(base, answers, offset)
    ensures Kill !in r.trace && NoSleeps(r.trace)
    decreases MaxPortAttempts - offset
  {
    if offset == MaxPortAttempts then
      ScanRun(None, last, service, [], [])
    else
      var port := PortAt(base, offset);
      var a := answers[offset];
      if a.Started? then
        ScanRun(Some(port), last, Some(Service(port, true)), [port as int], [TryPort(port)])
      else
        var rest := Scan(base, answers, AfterFailedAttempt(a, port, service), offset + 1, CauseOf(a));
        rest.(tried := [port as int] + rest.tried, trace := [TryPort(port)] + StopCalls(a, port, service) + rest.trace)
  }

  /** One failed attempt tries its own port, then hands over to the next offset. */
  lemma ScanStep(base: Int32, answers: seq<PortAnswer>, service: Option<Service>, offset: nat, last: Option<Exc>)
    requires |answers| == MaxPortAttempts && offset < MaxPortAttempts && !answers[offset].Started?
    ensures var r := Scan(base, answers, service, offset, last);
      var port := PortAt(base, offset);
      var rest := Scan(base, answers, AfterFailedAttempt(answers[offset], port, service), offset + 1, CauseOf(answers[offset]));
      && r.bound == rest.bound && r.last == rest.last && r.service == rest.service
      && r.tried == [port as int] + rest.tried
  {
  }

  /** The scan stops at the first offset `k` that reports running and binds the service to that port. */
  lemma {:induction false} ScanBindsFirst(base: Int32, answers: seq<PortAnswer>, service: Option<Service>, offset: nat, last: Option<Exc>, k: nat)
    requires |answers| == MaxPortAttempts && offset <= MaxPortAttempts
    requires FirstStartedFrom(answers, offset, k)
    ensures var r := Scan(base, answers, service, offset, last);
      && r.bound == Some(PortAt(base, k) as int)
      && r.service == Some(Service(PortAt(base, k), true))
    decreases MaxPortAttempts - offset
  {
    var r := Scan(base, answers, service, offset, last);
    if k != offset {
      var next := AfterFailedAttempt(answers[offset], PortAt(base, offset), service);
      var rest := Scan(base, answers, next, offset + 1, CauseOf(answers[offset]));
      assert r.bound == rest.bound && r.service == rest.service;
      ScanBindsFirst(base, answers, next, offset + 1, CauseOf(answers[offset]), k);
    } else {
      assert r.bound == Some(PortAt(base, k) as int);
    }
  }

  /** The ports a scan records as tried are exactly the `TryPort` calls of its trace, in order. */
  lemma {:induction false} ScanTriedIsTrace(base: Int32, answers: seq<PortAnswer>, service: Option<Service>, offset: nat, last: Option<Exc>)
    requires |answers| == MaxPortAttempts && offset <= MaxPortAttempts
    ensures var r := Scan(base, answers, service, offset, last); PortsTried(r.trace) == r.tried
    decreases MaxPortAttempts - offset
  {
    if offset < MaxPortAttempts {
      var port := PortAt(base, offset);
      if answers[offset].Started? {
        assert PortsTried([TryPort(port)]) == [port as int];
      } else {
        var a := answers[offset];
        var next := AfterFailedAttempt(a, port, service);
        var rest := Scan(base, answers, next, offset + 1, CauseOf(a));
        var r := Scan(base, answers, service, offset, last);
        assert r.trace == [TryPort(port)] + StopCalls(a, port, service) + rest.trace;
        assert r.tried == [port as int] + rest.tried;
        assert PortsTried([TryPort(port)]) == [port as int];
        PortsTriedAppend([TryPort(port)], StopCalls(a, port, service));
        PortsTriedAppend([TryPort(port)] + StopCalls(a, port, service), rest.trace);
        ScanTriedIsTrace(base, answers, next, offset + 1, CauseOf(a));
      }
    }
  }

  /** The scan stops at the first offset `k` that reports running, having tried exactly the ports up to `k`. */
  lemma ScanFindsFirst(base: Int32, answers: seq<PortAnswer>, service: Option<Service>, offset: nat, last: Option<Exc>, k: nat)
    requires |answers| == MaxPortAttempts && offset <= MaxPortAttempts
    requires FirstStartedFrom(answers, offset, k)
    ensures var r := Scan(base, answers, service, offset, last);
      && r.bound == Some(PortAt(base, k) as int)
      && r.service == Some(Service(PortAt(base, k), true))
      && PortsTried(r.trace) == PortsFrom(base, offset, k + 1)
  {
    ScanBindsFirst(base, answers, service, offset, last, k);
    PortsUntilFirstStarted(base, answers, offset, k);
    ScanTriedIsTrace(base, answers, service, offset, last);
  }

  /**
    When no offset from here on reports running, the scan tries every
    remaining port, binds nothing, and `lastException` is what the final
    attempt left: its exception, or `null` after a timeout.
   */
  lemma {:induction false} ScanExhausts(base: Int32, answers: seq<PortAnswer>, service: Option<Service>, offset: nat, last: Option<Exc>)
    requires |answers| == MaxPortAttempts && offset <= MaxPortAttempts
    requires NoneStartedFrom(answers, offset)
    ensures var r := Scan(base, answers, service, offset, last);
      && r.bound.None?
      && r.tried == PortsFrom(base, offset, MaxPortAttempts)
      && r.last == (if offset < MaxPortAttempts then CauseOf(answers[MaxPortAttempts - 1]) else last)
    decreases MaxPortAttempts - offset
  {
    var r := Scan(base, answers, service, offset, last);
    PortsUntilNoneStarted(base, answers, offset);
    assert r.tried == PortsFrom(base, offset, MaxPortAttempts);
    if offset < MaxPortAttempts {
      var a := answers[offset];
      assert !a.Started?;
      var next := AfterFailedAttempt(a, PortAt(base, offset), service);
      var rest := Scan(base, answers, next, offset + 1, CauseOf(a));
      ScanStep(base, answers, service, offset, last);
      ScanExhausts(base, answers, next, offset + 1, CauseOf(a));
      if offset + 1 == MaxPortAttempts {
        // The final attempt: the scan past the last offset keeps its cause.
        assert rest.last == CauseOf(a);
      } else {
        assert rest.last == CauseOf(answers[MaxPortAttempts - 1]);
      }
      assert r.bound == rest.bound && r.last == rest.last;
    }
  }

  /** What a supervisor operation did: the exception it let escape, if any, the new static service, and its calls. */
  datatype ServerRun = ServerRun(error: Option<Exc>, service: Option<Service>, trace: seq<Event>)

  /** `appiumService != null && appiumService.isRunning()`: a null field never counts as running. */
  predicate IsRunning(service: Option<Service>): (r: bool)
    ensures service.None? ==> !r
    ensures service.Some? ==> (r <==> service.value.running)
  {
    service.Some? && service.value.running
  }

  /**
    `startAppiumServer()`: a no-op when the service already runs; otherwise kill
    stray server processes, then scan from the configured port. Exhausting the
    scan throws "Failed to start Appium server after 10 attempts" (with the last
    attempt's exception as cause when it threw), which the outer `catch`
    rewraps as "Failed to start Appium server: ...".
   */
  function StartAppiumServer(service: Option<Service>, config: UtilConfig.Properties, answers: seq<PortAnswer>): (r: ServerRun)
    requires |answers| == MaxPortAttempts
    ensures IsRunning(service) ==> r == ServerRun(None, service, [])
    ensures r.error.None? <==> IsRunning(r.service)
    ensures !IsRunning(service) ==> |r.trace| > 0 && r.trace[0] == Kill
    ensures r.error.Some? ==>
      && r.error.value.kind == RuntimeException
      && r.error.value.message == StartFailedPrefix + ScanFailedMessage
      && r.error.value.cause.Some?
      && r.error.value.cause.value.message == ScanFailedMessage
    ensures NoSleeps(r.trace)
  {
    if IsRunning(service) then
      ServerRun(None, service, [])
    else
      var base := UtilConfig.GetIPPort(config);
      var scan := Scan(base, answers, service, 0, None);
      var trace := [Kill] + scan.trace;
      if scan.bound.Some? then
        ServerRun(None, scan.service, trace)
      else
        var inner := Runtime(ScanFailedMessage, scan.last);
        ServerRun(Some(Runtime(StartFailedPrefix + inner.message, Some(inner))), scan.service, trace)
  }

  /** Some offset reports running exactly when there is a first such offset. */
  function FirstStartedIndex(answers: seq<PortAnswer>, from: nat): (k: nat)
    requires from <= |answers| && !NoneStartedFrom(answers, from)
    ensures FirstStartedFrom(answers, from, k)
    decreases |answers| - from
  {
    if answers[from].Started? then from else FirstStartedIndex(answers, from + 1)
  }

  /** `ensureAppiumServerRunning()`: start only when there is no service or it does not report running. */
  function EnsureAppiumServerRunning(service: Option<Service>, config: UtilConfig.Properties, answers: seq<PortAnswer>): (r: ServerRun)
    requires |answers| == MaxPortAttempts
    ensures IsRunning(service) ==> r == ServerRun(None, service, [])
    ensures !IsRunning(service) ==> r == StartAppiumServer(service, config, answers)
  {
    if service.None? || !service.value.running then StartAppiumServer(service, config, answers)
    else ServerRun(None, service, [])
  }

  /**
    When the server is not running, the scan tries the configured port and the
    ones after it in order, stops at the first offset `k` that reports running
    after exactly `k + 1` attempts, and leaves the service bound to that port.
   */
  lemma {:induction false} StartBindsFirstRunningPort(service: Option<Service>, config: UtilConfig.Properties, answers: seq<PortAnswer>, k: nat)
    requires |answers| == MaxPortAttempts && !IsRunning(service)
    requires FirstStartedFrom(answers, 0, k)
    ensures var r := StartAppiumServer(service, config, answers);
      var base := UtilConfig.GetIPPort(config);
      && r.error.None?
      && r.service == Some(Service(PortAt(base, k), true))
      && PortsTried(r.trace) == PortsFrom(base, 0, k + 1)
      && |PortsTried(r.trace)| == k + 1
  {
    var scan := Scan(UtilConfig.GetIPPort(config), answers, service, 0, None);
    ScanFindsFirst(UtilConfig.GetIPPort(config), answers, service, 0, None, k);
    PortsTriedAppend([Kill], scan.trace);
  }

  /** A scan that binds nothing makes the start throw the two-level error over the scan's `lastException`. */
  lemma StartAfterUnboundScan(service: Option<Service>, config: UtilConfig.Properties, answers: seq<PortAnswer>)
    requires |answers| == MaxPortAttempts && !IsRunning(service)
    requires Scan(UtilConfig.GetIPPort(config), answers, service, 0, None).bound.None?
    ensures var scan := Scan(UtilConfig.GetIPPort(config), answers, service, 0, None);
      var inner := Runtime(ScanFailedMessage, scan.last);
      StartAppiumServer(service, config, answers) == ServerRun(Some(Runtime(StartFailedPrefix + inner.message, Some(inner))), scan.service, [Kill] + scan.trace)
  {
  }

  /**
    When no offset reports running, exactly ten ports are tried and the
    escaping exception's inner cause is the tenth attempt's exception, or
    absent when the tenth attempt merely timed out.
   */
  lemma {:induction false} StartFailsAfterTenAttempts(service: Option<Service>, config: UtilConfig.Properties, answers: seq<PortAnswer>)
    requires |answers| == MaxPortAttempts && !IsRunning(service)
    requires NoneStartedFrom(answers, 0)
    ensures var r := StartAppiumServer(service, config, answers);
      && r.error.Some?
      && PortsTried(r.trace) == PortsFrom(UtilConfig.GetIPPort(config), 0, MaxPortAttempts)
      && |PortsTried(r.trace)| == MaxPortAttempts
      && r.error.value.cause.value.cause == CauseOf(answers[MaxPortAttempts - 1])
      && (r.error.value.cause.value.cause.Some? <==> answers[MaxPortAttempts - 1].StartThrew?)
  {
    var base := UtilConfig.GetIPPort(config);
    var scan := Scan(base, answers, service, 0, None);
    ScanExhausts(base, answers, service, 0, None);
    StartAfterUnboundScan(service, config, answers);
    var r := StartAppiumServer(service, config, answers);
    assert PortsTried(r.trace) == scan.tried by {
      ScanTriedIsTrace(base, answers, service, 0, None);
      PortsTriedAppend([Kill], scan.trace);
      assert PortsTried([Kill]) == [];
    }
    assert |PortsTried(r.trace)| == MaxPortAttempts;
    assert r.error.value.cause.value.cause == scan.last == CauseOf(answers[MaxPortAttempts - 1]);
  }

  /** Starting the server succeeds exactly when it already runs or some of the ten ports reports running. */
  lemma StartSucceedsIff(service: Option<Service>, config: UtilConfig.Properties, answers: seq<PortAnswer>)
    requires |answers| == MaxPortAttempts
    ensures StartAppiumServer(service, config, answers).error.None? <==>
      IsRunning(service) || !NoneStartedFrom(answers, 0)
  {
    if !IsRunning(service) {
      var base := UtilConfig.GetIPPort(config);
      if NoneStartedFrom(answers, 0) {
        ScanExhausts(base, answers, service, 0, None);
      } else {
        ScanBindsFirst(base, answers, service, 0, None, FirstStartedIndex(answers, 0));
      }
    }
  }

  /** Without `int` overflow, the ports tried are `basePort + 0, basePort + 1, ...`, strictly increasing. */
  lemma PortsAreConsecutive(base: Int32, n: nat)
    requires n <= MaxPortAttempts && base + MaxPortAttempts - 1 <= MaxInt
    ensures forall i :: 0 <= i < n ==> PortsFrom(base, 0, n)[i] == base + i
    ensures forall i, j :: 0 <= i < j < n ==> PortsFrom(base, 0, n)[i] < PortsFrom(base, 0, n)[j]
  {
    PortsFromAt(base, 0, n);
  }

  /**
    Calling `ensureAppiumServerRunning` again after it succeeded is a no-op:
    no second kill, no port attempt, the same service.
   */
  lemma EnsureTwiceStartsOnce(service: Option<Service>, config: UtilConfig.Properties, first: seq<PortAnswer>, second: seq<PortAnswer>)
    requires |first| == MaxPortAttempts && |second| == MaxPortAttempts
    requires EnsureAppiumServerRunning(service, config, first).error.None?
    ensures var r1 := EnsureAppiumServerRunning(service, config, first);
      EnsureAppiumServerRunning(r1.service, config, second) == ServerRun(None, r1.service, [])
  {
  }

  /**
    `stopAppiumServer()`: when the service runs, stop it and then kill stray
    server processes; when `service.stop()` throws, the kill is skipped and the
    error is swallowed. It never throws.
   */
  function StopAppiumServer(service: Option<Service>, stopThrows: bool): (r: ServerRun)
    ensures r.error.None?
    ensures !IsRunning(service) ==> r == ServerRun(None, service, [])
    ensures IsRunning(service) && !stopThrows ==> !IsRunning(r.service) && Kill in r.trace
    ensures IsRunning(service) ==> |r.trace| > 0 && r.trace[0] == StopService(service.value.port)
  {
    if service.Some? && service.value.running then
      if stopThrows then ServerRun(None, service, [StopService(service.value.port)])
      else ServerRun(None, Some(service.value.(running := false)), [StopService(service.value.port), Kill])
    else ServerRun(None, service, [])
  }

  /** Stopping twice is the same as stopping once. */
  lemma StopIsIdempotent(service: Option<Service>)
    ensures var r := StopAppiumServer(service, false);
      StopAppiumServer(r.service, false) == ServerRun(None, r.service, [])
  {
  }
}
