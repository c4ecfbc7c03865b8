/**
  The external world as the session-lifecycle core sees it. Every call into
  Appium, Selenium, the OS or the clock is either an answer the model reads
  from its input (`IdAnswer`, `QuitAnswer`, ...) or an `Event` it appends to
  the trace it returns, so that counts and orders of calls can be stated.
 */
module Effects {
  import opened JavaLang

  /** Identity of one constructed `AppiumDriver` object. */
  type DriverId = nat

  /** Identity of one worker thread (the key of the `ThreadLocal` slot). */
  type Worker = nat

  /** What one call of `driver.getSessionId()` did. */
  datatype IdAnswer = SessionId(id: string) | NoSession | IdThrew(e: Exc)

  /** What one call of `driver.quit()` did. */
  datatype QuitAnswer = QuitOk | QuitThrew(e: Exc)

  /** Observable calls, in the order the core makes them. */
  datatype Event =
      /** `killAppiumProcesses()`: best-effort, never fails, includes its own settling wait. */
    | Kill
      /** Build and start a server on this port. */
    | TryPort(port: int)
      /** `service.stop()` on the server bound to this port. */
    | StopService(port: int)
      /** `driver.getSessionId()`. */
    | QuerySession(driver: DriverId)
      /** `Thread.sleep(millis)`. */
    | Sleep(millis: nat)
      /** `driver.quit()`. */
    | Quit(driver: DriverId)
      /** `implicitlyWait(...)` followed by `getPageSource()`: the liveness probe. */
    | Probe(driver: DriverId)

  /** Spacing of session-id polls. */
  const PollMillis: nat := 1000

  /** Back-off between driver-initialisation attempts. */
  const BackoffMillis: nat := 2000

  /** Number of `Sleep(millis)` events in a trace. */
  function Sleeps(t: seq<Event>, millis: nat): nat {
    multiset(t)[Sleep(millis)]
  }

  /** Number of `quit()` calls on one driver in a trace. */
  function Quits(t: seq<Event>, d: DriverId): nat {
    multiset(t)[Quit(d)]
  }

  /** The port an event tried, if it is a `TryPort`. */
  function PortOf(e: Event): (r: seq<int>)
    ensures |r| <= 1
  {
    if e.TryPort? then [e.port] else []
  }

  /** The ports a trace tried, in order. */
  function PortsTried(t: seq<Event>): (r: seq<int>)
    ensures |r| <= |t|
  {
    if t == [] then [] else PortOf(t[0]) + PortsTried(t[1..])
  }

  lemma {:induction false} PortsTriedAppend(a: seq<Event>, b: seq<Event>)
    ensures PortsTried(a + b) == PortsTried(a) + PortsTried(b)
  {
    if a == [] {
      assert a + b == b;
    } else {
      calc {
        PortsTried(a + b);
        PortOf(a[0]) + PortsTried((a + b)[1..]);
        { assert (a + b)[1..] == a[1..] + b; }
        PortOf(a[0]) + PortsTried(a[1..] + b);
        { PortsTriedAppend(a[1..], b); }
        PortOf(a[0]) + (PortsTried(a[1..]) + PortsTried(b));
      }
    }
  }

  /** Every event of a trace that is a sleep has the given length. */
  predicate OnlySleepsOf(t: seq<Event>, millis: nat) {
    forall i :: 0 <= i < |t| && t[i].Sleep? ==> t[i].millis == millis
  }

  /** The trace has no `Thread.sleep` at all. */
  predicate NoSleeps(t: seq<Event>) {
    forall i :: 0 <= i < |t| ==> !t[i].Sleep?
  }

  /** Every `quit()` in the trace is on the given driver. */
  predicate OnlyQuits(t: seq<Event>, d: DriverId) {
    forall i :: 0 <= i < |t| && t[i].Quit? ==> t[i].driver == d
  }

  lemma NoOtherSleeps(t: seq<Event>, millis: nat, other: nat)
    requires OnlySleepsOf(t, millis) && other != millis
    ensures Sleeps(t, other) == 0 && Sleep(other) !in t
  {
    assert forall i :: 0 <= i < |t| ==> t[i] != Sleep(other);
    assert Sleep(other) !in t;
  }

  lemma NoSleepsExcludes(t: seq<Event>, millis: nat)
    requires NoSleeps(t)
    ensures Sleeps(t, millis) == 0 && Sleep(millis) !in t
  {
    assert forall i :: 0 <= i < |t| ==> t[i] != Sleep(millis);
  }

  /** Appending a suffix that only sleeps `millis` and only quits `d` keeps both properties of the trace. */
  lemma OnlyAppend(a: seq<Event>, b: seq<Event>, millis: nat, d: DriverId)
    requires OnlySleepsOf(a, millis) && OnlyQuits(a, d)
    requires OnlySleepsOf(b, millis) && OnlyQuits(b, d)
    ensures OnlySleepsOf(a + b, millis) && OnlyQuits(a + b, d)
  {
    forall i | 0 <= i < |a + b|
      ensures (a + b)[i] == if i < |a| then a[i] else b[i - |a|]
    {
    }
  }
}
